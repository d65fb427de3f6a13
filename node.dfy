/**
 * The "node-validation" webhook (LabelsWebhook): members of the dedicated-admins
 * group may change the labels of plain worker nodes only, and may not turn a
 * worker into a master or infra node or strip its worker role label.
 */
module NodeWebhook {
  import opened Admission

  // Registration metadata: constants, no logic.
  const WebhookName: string := "node-validation"
  const URI: string := "/node-validation"
  const TimeoutSeconds: int := 1
  const FailurePolicy: string := "Ignore"
  const MatchPolicy: string := "Exact"
  const SideEffects: string := "None"
  /** The operations the webhook is registered for. */
  const Operations: seq<string> := ["UPDATE", "DELETE"]

  // The well-known role label keys.
  const MasterLabel: string := "node-role.kubernetes.io/master"
  const InfraLabel: string := "node-role.kubernetes.io"
  const WorkerLabel: string := "node-role.kubernetes.io/worker"
  /** The value of InfraLabel that marks an infra node. */
  const InfraValue: string := "infra"

  /** The groups whose members the label rules apply to. */
  const AdminGroups: seq<string> := ["dedicated-admins"]

  /** Linear search: is `e` an element of `s`? */
  method Contains(s: seq<string>, e: string) returns (found: bool)
    ensures found <==> e in s
  {
    for i := 0 to |s|
      invariant forall k :: 0 <= k < i ==> s[k] != e
    {
      if s[i] == e {
        return true;
      }
    }
    return false;
  }

  /** Some group of the requester is an admin group. */
  predicate HasAdminGroup(groups: seq<string>)
  {
    exists g :: g in groups && g in AdminGroups
  }

  /** `Validate`: the request is valid when both payloads unmarshal without error. */
  predicate Validate(req: Request)
  {
    req.newObject.ok && req.oldObject.ok
  }

  /**
   * The label change an admin may make: the old node is a worker that is not
   * labelled infra, and the new node is a worker that carries neither the
   * master label nor the infra label key (whatever its value).
   */
  predicate RoleChangePermitted(oldLabels: Labels, newLabels: Labels)
  {
    && WorkerLabel in oldLabels
    && !(InfraLabel in oldLabels && oldLabels[InfraLabel] == InfraValue)
    && MasterLabel !in newLabels
    && InfraLabel !in newLabels
    && WorkerLabel in newLabels
  }

  /**
   * The verdict of `authorized`, stated without its loop. A rule denial carries
   * an empty UID: in the source the UID copied into the response is lost when
   * the response is replaced by the denial on the next line.
   */
  function Verdict(req: Request): (r: Response)
  {
    if req.username == UnauthenticatedUser then
      Denied(UnauthenticatedReason, req.uid)
    else if req.groups == [] then
      Allowed(AllowMessage, req.uid)
    else if !Validate(req) then
      Denied(UnauthorizedAction, "")
    else if HasAdminGroup(req.groups)
         && !RoleChangePermitted(req.oldObject.labels, req.newObject.labels) then
      Denied(UnauthorizedAction, "")
    else
      Allowed(AllowMessage, req.uid)
  }

  /**
   * `authorized`: one pass over the requester's groups. Every iteration decodes
   * both payloads again and, for an admin group, runs the label rules in order;
   * the first rule that fails denies.
   */
  method Authorized(req: Request) returns (ret: Response)
    ensures ret == Verdict(req)
  {
    if req.username == UnauthenticatedUser {
      return Denied(UnauthenticatedReason, req.uid);
    }
    for i := 0 to |req.groups|
      invariant 0 < i ==> Validate(req)
      invariant forall k :: 0 <= k < i && req.groups[k] in AdminGroups ==>
        RoleChangePermitted(req.oldObject.labels, req.newObject.labels)
    {
      var userGroup := req.groups[i];
      if !req.newObject.ok {
        return Denied(UnauthorizedAction, "");
      }
      if !req.oldObject.ok {
        return Denied(UnauthorizedAction, "");
      }
      var node, oldNode := req.newObject.labels, req.oldObject.labels;
      var admin := Contains(AdminGroups, userGroup);
      if admin {
        // Each denial below replaces the response whose UID had just been set.
        if WorkerLabel !in oldNode {
          return Denied(UnauthorizedAction, "");
        }
        if InfraLabel in oldNode && oldNode[InfraLabel] == InfraValue {
          return Denied(UnauthorizedAction, "");
        }
        if MasterLabel in node {
          return Denied(UnauthorizedAction, "");
        }
        if InfraLabel in node {
          return Denied(UnauthorizedAction, "");
        }
        if WorkerLabel !in node {
          return Denied(UnauthorizedAction, "");
        }
      }
    }
    assert HasAdminGroup(req.groups) ==>
      exists k :: 0 <= k < |req.groups| && req.groups[k] in AdminGroups;
    return Allowed(AllowMessage, req.uid);
  }

  /**
   * `HandleRequest` after transport parsing: a parse failure and an invalid
   * request are errors (HTTP 400), everything else gets the verdict of
   * `Authorized`. Because `Validate` has already checked both payloads, a
   * rule-list denial that reaches the caller always means an admin tried a
   * forbidden label change.
   */
  method HandleRequest(parsed: Parsed) returns (resp: Response)
    ensures parsed.ParseFailure? ==> resp == Errored(StatusBadRequest, parsed.message, "")
    ensures parsed.Parsed? && !(parsed.request.newObject.ok && parsed.request.oldObject.ok) ==>
      resp == Errored(StatusBadRequest, "Invalid request", parsed.request.uid)
    ensures parsed.Parsed? && parsed.request.newObject.ok && parsed.request.oldObject.ok ==>
      resp == Verdict(parsed.request)
    ensures resp.Denied? && resp.reason == UnauthorizedAction ==>
      parsed.Parsed? && HasAdminGroup(parsed.request.groups) &&
      !RoleChangePermitted(parsed.request.oldObject.labels, parsed.request.newObject.labels)
  {
    if parsed.ParseFailure? {
      return Errored(StatusBadRequest, parsed.message, "");
    }
    var request := parsed.request;
    if !Validate(request) {
      return Errored(StatusBadRequest, "Invalid request", request.uid);
    }
    resp := Authorized(request);
  }

  // Properties of the verdict.

  /** An anonymous requester is denied with the request's UID, whatever the groups and labels. */
  lemma UnauthenticatedDenied(req: Request)
    requires req.username == UnauthenticatedUser
    ensures Verdict(req) == Denied(UnauthenticatedReason, req.uid)
  {
  }

  /** A requester with no groups is allowed with the request's UID, and the payloads are not looked at. */
  lemma NoGroupsAllowed(req: Request)
    requires req.username != UnauthenticatedUser && req.groups == []
    ensures Verdict(req) == Allowed(AllowMessage, req.uid)
  {
  }

  /** With at least one group, a payload that does not decode is denied, admin or not. */
  lemma DecodeFailureDenied(req: Request)
    requires req.username != UnauthenticatedUser && req.groups != []
    requires !req.newObject.ok || !req.oldObject.ok
    ensures Verdict(req) == Denied(UnauthorizedAction, "")
  {
  }

  /** A requester outside the admin groups is allowed once both payloads decode; the labels are not inspected. */
  lemma NonAdminAllowed(req: Request)
    requires req.username != UnauthenticatedUser && Validate(req)
    requires forall g :: g in req.groups ==> g !in AdminGroups
    ensures Verdict(req) == Allowed(AllowMessage, req.uid)
  {
  }

  /**
   * For an admin with both payloads decoded, the change is allowed exactly when
   * the five label conditions all hold, and denied otherwise.
   */
  lemma AdminVerdict(req: Request)
    requires req.username != UnauthenticatedUser && Validate(req)
    requires "dedicated-admins" in req.groups
    ensures
      var oldL, newL := req.oldObject.labels, req.newObject.labels;
      var ok :=
        && WorkerLabel in oldL
        && (InfraLabel !in oldL || oldL[InfraLabel] != "infra")
        && MasterLabel !in newL
        && InfraLabel !in newL
        && WorkerLabel in newL;
      Verdict(req) == if ok then Allowed(AllowMessage, req.uid) else Denied(UnauthorizedAction, "")
  {
    assert HasAdminGroup(req.groups);
  }

  /**
   * Only the anonymous denial echoes the UID among denials; allowances always
   * echo it; `authorized` never produces an error response.
   */
  lemma VerdictUid(req: Request)
    ensures Verdict(req).Allowed? ==> Verdict(req) == Allowed(AllowMessage, req.uid)
    ensures Verdict(req).Denied? ==>
      Verdict(req).uid == (if Verdict(req).reason == UnauthenticatedReason then req.uid else "")
    ensures !Verdict(req).Errored?
  {
  }

  /**
   * The verdict depends on the groups only through which names occur: their
   * order and repetitions do not matter.
   */
  lemma {:induction false} GroupOrderIrrelevant(req: Request, groups: seq<string>)
    requires (set g | g in groups) == (set g | g in req.groups)
    ensures Verdict(req.(groups := groups)) == Verdict(req)
  {
    var same := set g | g in groups;
    if groups != [] {
      assert groups[0] in same;
    }
    if req.groups != [] {
      assert req.groups[0] in same;
    }
    assert HasAdminGroup(groups) <==> HasAdminGroup(req.groups) by {
      assert forall g :: g in groups <==> g in same;
    }
  }
}
