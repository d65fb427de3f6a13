/**
 * The "node-labels-validation" webhook (NodeLabelsWebhook): guards the generic
 * `type` label. Master and infra nodes may not be changed, a worker must stay a
 * worker, and a node that already has some other type may not be promoted to
 * master or infra. The requester's groups are never consulted.
 */
module NodeLabelsWebhook {
  import opened Admission

  // Registration metadata: constants, no logic.
  const WebhookName: string := "node-labels-validation"
  const URI: string := "/regularuser-validation"
  const TimeoutSeconds: int := 2
  const FailurePolicy: string := "Ignore"
  const MatchPolicy: string := "Equivalent"
  const SideEffects: string := "None"
  /** The operations the webhook is registered for. */
  const Operations: seq<string> := ["UPDATE"]

  /** Declared by the webhook but never consulted by its decision. */
  const AdminGroups: seq<string> := ["dedicated-admin"]

  /** The role label key and its recognised values. */
  const TypeLabel: string := "type"
  const MasterType: string := "master"
  const InfraType: string := "infra"
  const WorkerType: string := "worker"

  /** The message of the error response to a request without a user name. */
  const InvalidRequestMessage: string := "Could not parse Namespace from request"

  /** The role a node's `type` label gives it. */
  datatype RoleState = Master | Infra | Worker | OtherType | Untyped

  function Classify(labels: Labels): (role: RoleState)
  {
    if TypeLabel !in labels then Untyped
    else if labels[TypeLabel] == MasterType then Master
    else if labels[TypeLabel] == InfraType then Infra
    else if labels[TypeLabel] == WorkerType then Worker
    else OtherType
  }

  /**
   * The role transitions the webhook lets through: an untyped node may become
   * anything, master and infra nodes may not be touched, a worker stays a
   * worker, and any other type may change to anything but master or infra.
   */
  predicate TransitionPermitted(oldRole: RoleState, newRole: RoleState)
  {
    match oldRole
    case Untyped => true
    case Master => false
    case Infra => false
    case Worker => newRole == Worker
    case OtherType => newRole != Master && newRole != Infra
  }

  /** `Validate`: a request is valid when it names a user. */
  predicate Validate(req: Request)
  {
    req.username != ""
  }

  /**
   * `authorized`. A decode failure of either payload is recorded as a denial,
   * but every later path replaces that response, so it never reaches the
   * caller; the rules then read whatever labels the decoder left behind.
   * Every rule denial carries an empty UID, because the denial replaces the
   * response whose UID had just been set.
   */
  function Authorized(req: Request): (ret: Response)
    ensures req.username == UnauthenticatedUser ==> ret == Denied(UnauthenticatedReason, req.uid)
    ensures req.username != UnauthenticatedUser ==>
      ret == (if TransitionPermitted(Classify(req.oldObject.labels), Classify(req.newObject.labels))
              then Allowed(AllowMessage, req.uid)
              else Denied(UnauthorizedAction, ""))
    ensures ret.Allowed? ==> ret == Allowed(AllowMessage, req.uid)
    ensures ret.Denied? ==>
      ret == Denied(UnauthenticatedReason, req.uid) || ret == Denied(UnauthorizedAction, "")
    ensures !ret.Errored?
  {
    if req.username == UnauthenticatedUser then
      Denied(UnauthenticatedReason, req.uid)
    else
      var node, oldNode := req.newObject.labels, req.oldObject.labels;
      if TypeLabel in oldNode && (oldNode[TypeLabel] == InfraType || oldNode[TypeLabel] == MasterType) then
        Denied(UnauthorizedAction, "")
      else if TypeLabel in oldNode && oldNode[TypeLabel] == WorkerType
           && (TypeLabel !in node || node[TypeLabel] != WorkerType) then
        Denied(UnauthorizedAction, "")
      else if TypeLabel in oldNode && oldNode[TypeLabel] != MasterType && oldNode[TypeLabel] != InfraType
           && TypeLabel in node && (node[TypeLabel] == MasterType || node[TypeLabel] == InfraType) then
        Denied(UnauthorizedAction, "")
      else
        Allowed(AllowMessage, req.uid)
  }

  /**
   * `HandleRequest` after transport parsing: a parse failure and a request
   * without a user name are errors (HTTP 400), everything else gets the verdict
   * of `Authorized`.
   */
  function HandleRequest(parsed: Parsed): (resp: Response)
    ensures resp.Errored? <==> parsed.ParseFailure? || parsed.request.username == ""
    ensures resp.Errored? ==> resp.code == StatusBadRequest
    ensures parsed.ParseFailure? ==> resp.uid == ""
    ensures parsed.Parsed? && parsed.request.username == "" ==>
      resp == Errored(StatusBadRequest, InvalidRequestMessage, parsed.request.uid)
    ensures !resp.Errored? ==> resp == Authorized(parsed.request)
  {
    if parsed.ParseFailure? then
      Errored(StatusBadRequest, parsed.message, "")
    else if !Validate(parsed.request) then
      Errored(StatusBadRequest, InvalidRequestMessage, parsed.request.uid)
    else
      Authorized(parsed.request)
  }

  // Properties of the verdict.

  /** The groups play no part: replacing them changes neither `authorized` nor `HandleRequest`. */
  lemma GroupsIgnored(req: Request, groups: seq<string>)
    ensures Authorized(req.(groups := groups)) == Authorized(req)
    ensures HandleRequest(Parsed(req.(groups := groups))) == HandleRequest(Parsed(req))
  {
  }

  /** Whether a payload decoded makes no difference: only the labels left behind count. */
  lemma DecodeErrorsIgnored(req: Request, newOk: bool, oldOk: bool)
    ensures Authorized(req.(newObject := req.newObject.(ok := newOk), oldObject := req.oldObject.(ok := oldOk)))
         == Authorized(req)
  {
  }

  /** A master or infra node is never changed, whatever the new labels are. */
  lemma ProtectedNodeDenied(req: Request)
    requires req.username != UnauthenticatedUser
    requires TypeLabel in req.oldObject.labels
    requires req.oldObject.labels[TypeLabel] in {InfraType, MasterType}
    ensures Authorized(req) == Denied(UnauthorizedAction, "")
  {
  }

  /** A worker may not lose its `type` label nor have it changed. */
  lemma WorkerDowngradeDenied(req: Request)
    requires req.username != UnauthenticatedUser
    requires TypeLabel in req.oldObject.labels && req.oldObject.labels[TypeLabel] == WorkerType
    requires TypeLabel !in req.newObject.labels || req.newObject.labels[TypeLabel] != WorkerType
    ensures Authorized(req) == Denied(UnauthorizedAction, "")
  {
  }

  /** A node that already has a type other than master or infra may not be promoted to one. */
  lemma PromotionDenied(req: Request)
    requires req.username != UnauthenticatedUser
    requires TypeLabel in req.oldObject.labels
    requires req.oldObject.labels[TypeLabel] !in {MasterType, InfraType}
    requires TypeLabel in req.newObject.labels
    requires req.newObject.labels[TypeLabel] in {MasterType, InfraType}
    ensures Authorized(req) == Denied(UnauthorizedAction, "")
  {
  }

  /**
   * A node without a `type` label may be given any labels, even a master or
   * infra type: the promotion rule only looks at nodes that already have a type.
   */
  lemma UntypedNodeAllowed(req: Request)
    requires req.username != UnauthenticatedUser
    requires TypeLabel !in req.oldObject.labels
    ensures Authorized(req) == Allowed(AllowMessage, req.uid)
  {
  }
}
