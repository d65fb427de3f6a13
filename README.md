# Node label admission webhooks

A model of the decision logic of two validating admission webhooks for
Kubernetes node objects. The API server calls each webhook before it applies an
update to a node. The webhook reads the requester's user name and groups, the
request UID, and the old and new node objects. It answers with one of three
responses:

- `Allowed(message, uid)`
- `Denied(reason, uid)`
- `Errored(httpCode, message, uid)`

The model has three modules:

- `Admission` (`admission.dfy`) holds the shared values: the request, the
  parsed-or-not envelope, the response and the common strings. The request's
  node objects are given as `NodeDecode(ok, labels)`, where `ok` says whether
  unmarshalling the raw payload succeeded and `labels` is the label mapping the
  node object holds afterwards.
- `NodeWebhook` (`node.dfy`) is the `node-validation` webhook (`LabelsWebhook`).
  Its rules use the role label keys `node-role.kubernetes.io/master`,
  `node-role.kubernetes.io/worker` and `node-role.kubernetes.io` (value
  `infra`). They apply only to members of `dedicated-admins`. `authorized` is
  a method with the source's loop over the groups: each iteration checks both
  decodes again and runs the label rules in order for an admin group. It is
  proved equal to `Verdict`, a loop-free statement of the same decision. The
  lemmas about `Verdict` state the policy case by case. `contains` is a
  linear-search method.
- `NodeLabelsWebhook` (`nodelabels.dfy`) is the `node-labels-validation`
  webhook (`NodeLabelsWebhook`). Its rules use the generic `type` label
  (`master`, `infra`, `worker`) and never look at groups. This file is pure
  straight-line logic, so it is modelled as functions. Its allow decision is
  proved equal to a separate definition: the `type` label is classified into a
  `RoleState`, and a table of permitted role transitions is checked.

Behaviour of the code that the model keeps on purpose:

- Every rule denial carries an empty UID. The code copies the request UID into
  the response and then, on the next line, replaces the whole response with
  the denial.
- The anonymous denial and every allowance carry the request UID.
- In `nodelabels.go`, the denial recorded when a payload fails to decode is
  always overwritten by a later path. The rules then read whatever labels the
  decoder left behind.

Some behaviour a reader might expect is not what the code does, and the model
follows the code:

- A reader might expect every response to echo the request UID. It does not.
  These responses carry an empty UID:
  - every rule denial in both webhooks;
  - the `UnauthorizedAction` denials that `node.go`'s `authorized` gives when a
    payload fails to decode (node.go:126, 133);
  - the error response to a request the transport layer could not parse.
- A reader might expect a payload that fails to decode to be denied with a
  reason naming the failure, before any other check. The code does something
  else:
  - `node.go`'s `HandleRequest` answers `Errored(400, "Invalid request")`.
  - `node.go`'s `authorized` on its own answers `UnauthorizedAction`, and only
    after the anonymous check and only for a requester with at least one group.
  - `nodelabels.go` ignores the failure.
- A reader might expect both webhooks to apply their rules only to a privileged
  group. Only `node.go` does: `nodelabels.go` declares `dedicated-admin` but
  never uses it.
- A reader might expect conflicting role labels to be rejected. The code does
  not detect them. `node.go` checks each key on its own, so an old node with
  both the master and the worker label, for example, passes the old-node
  checks.

## Model

| member | source | states |
|---|---|---|
| `NodeWebhook.Contains` | pkg/webhooks/node/node.go:192-199 | the result is true exactly when the element occurs in the slice |
| `NodeWebhook.Authorized` | pkg/webhooks/node/node.go:103-190 | the loop over groups, with decoding repeated per group and the five label rules checked first-match for admin groups, yields the same response as `Verdict` |
| `NodeWebhook.HandleRequest` | pkg/webhooks/node/node.go:201-222 | parse failure gives Errored(400) with no UID; `Validate` (lines 81-101) accepts exactly when both objects decode, and a request with either object undecodable gives Errored(400, "Invalid request") with the UID; otherwise the response is `Verdict`; so any UnauthorizedAction denial that reaches the caller comes from an admin whose label change breaks a rule |
| `NodeWebhook.UnauthenticatedDenied` | pkg/webhooks/node/node.go:106-113 | `system:unauthenticated` is denied "Unauthenticated" with the request UID, whatever the groups and labels |
| `NodeWebhook.NoGroupsAllowed` | pkg/webhooks/node/node.go:116-189 | an authenticated requester with no groups is allowed with the UID, even when a payload does not decode |
| `NodeWebhook.DecodeFailureDenied` | pkg/webhooks/node/node.go:122-135 | with at least one group, a failed decode of either object gives Denied("UnauthorizedAction") with empty UID, admin or not |
| `NodeWebhook.NonAdminAllowed` | pkg/webhooks/node/node.go:141-189 | with both objects decoded and no admin group, the request is allowed with the UID whatever the labels |
| `NodeWebhook.AdminVerdict` | pkg/webhooks/node/node.go:144-181 | for a `dedicated-admins` member with both objects decoded: allowed iff old has the worker label, old infra-key value is not "infra", new lacks the master label, new lacks the infra key, new has the worker label; otherwise Denied("UnauthorizedAction") with empty UID |
| `NodeWebhook.VerdictUid` | pkg/webhooks/node/node.go:146-188 | allowances carry the allow message and the UID; among denials only the "Unauthenticated" one carries the UID; `authorized` never errors |
| `NodeWebhook.GroupOrderIrrelevant` | pkg/webhooks/node/node.go:116-141 | two group lists with the same members give the same response: order and duplicates do not matter |
| `NodeLabelsWebhook.Authorized` | pkg/webhooks/nodelabels/nodelabels.go:83-162 | anonymous requester denied "Unauthenticated" with UID; otherwise allowed (with the allow message and UID) iff the old/new `type` roles form a permitted transition, else Denied("UnauthorizedAction") with empty UID; never errored, never a decode-failure reason |
| `NodeLabelsWebhook.HandleRequest` | pkg/webhooks/nodelabels/nodelabels.go:164-187 | `Validate` (lines 76-81) accepts exactly a non-empty user name, and the response is an error (HTTP 400) iff parsing failed or the user name is empty; the empty-name error carries the UID; otherwise the response is `Authorized`'s |
| `NodeLabelsWebhook.GroupsIgnored` | pkg/webhooks/nodelabels/nodelabels.go:25 | `adminGroups` is never used: replacing the groups changes neither `authorized` nor `HandleRequest` |
| `NodeLabelsWebhook.DecodeErrorsIgnored` | pkg/webhooks/nodelabels/nodelabels.go:99-112 | the verdict is the same whether or not either payload decoded; only the labels left in the objects matter |
| `NodeLabelsWebhook.ProtectedNodeDenied` | pkg/webhooks/nodelabels/nodelabels.go:114-122 | old `type` infra or master is denied "UnauthorizedAction" with empty UID, whatever the new labels |
| `NodeLabelsWebhook.WorkerDowngradeDenied` | pkg/webhooks/nodelabels/nodelabels.go:124-142 | old `type` worker with new `type` missing or not worker is denied |
| `NodeLabelsWebhook.PromotionDenied` | pkg/webhooks/nodelabels/nodelabels.go:144-156 | old `type` present and not master/infra, new `type` master or infra, is denied |
| `NodeLabelsWebhook.UntypedNodeAllowed` | pkg/webhooks/nodelabels/nodelabels.go:114-161 | an authenticated request on a node without `type` is allowed with the UID, even if the new labels make it master or infra |

## Left out

- HTTP transport. Request parsing (`utils.ParseHTTPRequest`) and response
  writing (`responsehelper.SendResponse`) are calls into code outside this
  model. A parse failure enters `HandleRequest` as `ParseFailure(message)`;
  the response is whatever `HandleRequest` returns.
- JSON decoding (`json.Unmarshal` into `corev1.Node`). It is replaced by the
  `NodeDecode` outcome carried in the request. The model does not decide which
  payloads fail, and it does not say which labels a failed decode leaves
  behind. For the same reason, the request's operation (UPDATE or DELETE) is
  not modelled: it matters only through the decode outcomes.
- The mutex in both `HandleRequest`s: it only serialises calls to a stateless
  decision.
- Logging: it does not affect any response.
- `NewWebhook` and scheme registration: library set-up with no decision logic.
- Registration getters (`TimeoutSeconds`, `MatchPolicy`, `FailurePolicy`,
  `Name`, `GetURI`, `SideEffects`, `Rules`). They are recorded as constants
  only. Of `Rules`, only the operation list is kept.
- Response fields other than the verdict, the reason or message, and the UID.
  Examples are the rest of the status object inside the result, and the patch
  fields.
