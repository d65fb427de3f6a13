/**
 * Values shared by the two node admission webhooks: the admission request as
 * the decision logic sees it, and the three kinds of response it can produce.
 */
module Admission {

  /** A node's label mapping, key to value. */
  type Labels = map<string, string>

  /**
   * The outcome of unmarshalling one raw node payload into a node object:
   * `ok` is false when the decoder reported an error, and `labels` is what the
   * node object's label mapping holds afterwards. A decoder that fails part-way
   * may leave partial data behind, so on failure `labels` is arbitrary.
   */
  datatype NodeDecode = NodeDecode(ok: bool, labels: Labels)

  /**
   * An admission request: its correlation UID, the requester's user name and
   * groups (in the order the authentication layer lists them), and the decode
   * outcomes of the new object (`Object` in the request) and of the old object.
   */
  datatype Request = Request(
    uid: string,
    username: string,
    groups: seq<string>,
    newObject: NodeDecode,
    oldObject: NodeDecode)

  /** What the transport layer hands over: a parsed request, or the parse error's text. */
  datatype Parsed = Parsed(request: Request) | ParseFailure(message: string)

  /**
   * An admission response. A response built by `Denied` or `Allowed` starts
   * with an empty UID; the webhooks copy the request's UID in afterwards on
   * some paths only, so `uid` is "" wherever that copy does not survive.
   */
  datatype Response =
    | Allowed(message: string, uid: string)
    | Denied(reason: string, uid: string)
    | Errored(code: int, message: string, uid: string)

  /** The user name the API server gives to anonymous requests. */
  const UnauthenticatedUser: string := "system:unauthenticated"

  const UnauthenticatedReason: string := "Unauthenticated"
  const UnauthorizedAction: string := "UnauthorizedAction"
  const AllowMessage: string := "New label does not infringe on node properties"

  /** HTTP 400, the status of every error-typed response. */
  const StatusBadRequest: int := 400

}
