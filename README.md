# Local warden: authorization decision model

A Dafny model of the authorization decision logic of `LocalWarden`, the
warden of an OAuth2/OpenID-Connect server that answers "may subject S
perform action A on resource R?".

- `Warden` (`warden_local.dfy`) holds the data model and the operations.
  - Requests, sessions, the introspected access request and the caller-facing
    context are datatypes.
  - Timestamps are integers counted from Go's zero `time.Time`, so the zero
    value `0` is the "no expiry" sentinel and `Add` is addition.
  - The three collaborators are total functions held in `const` fields of the
    class `LocalWarden`: the policy decision point (`Request -> Decision`),
    the group manager (`string -> Result<seq<string>, string>`) and token
    introspection.
  - `Decision = Allow | Deny | ForceDeny` is the policy verdict. `Allow` is a
    `nil` error. `ForceDeny` is an error whose cause is the forceful-deny
    sentinel. `Deny` is any other error.
  - `IsAllowedCore` is `isAllowed`. It fills an array `errs` with one verdict
    per identity, runs the two early-return scans, and is proved equal to
    the specification `Decide`, which is `Combine` over `Verdicts`.
  - `IsAllowed`, `TokenAllowed` and `NewContext` are the entry points and
    the context builder. `NewBasicContext` is the all-zero context.
- `WardenProperties` (`warden_properties.dfy`) proves the decision rule per
  identity (both directions), independence from group order and
  repetition, monotonicity in the group list, and the expiry fallback.

Three behaviours of the code worth noting:
- A policy verdict that is an error other than the forceful-deny sentinel
  counts as a plain deny, even when it is a policy-store failure. An allow
  from another identity then still grants access, and the reason reported is
  the fixed "denied" text. There is no distinct dependency-failure outcome.
- The subject may be empty; the code does not check it.
- `ExpiresAt` of a granted context is zero when the session has no expiry
  and `RequestedAt + AccessTokenLifespan` is zero, for example with a zero
  lifespan and a zero request time. `GrantedContextExpires` states the
  conditions under which the fallback is never zero.

## Model

| member | source | states |
|---|---|---|
| `Warden.Verdicts` | warden/warden_local.go:137-152 | the verdict list has one entry per identity; entry 0 is the subject's verdict on the request itself, entry k+1 that of group k with the same resource, action and context |
| `Warden.Combine` | warden/warden_local.go:154-166 | every outcome other than allow is of the "request forbidden" kind, and nothing is allowed without some allow verdict |
| `Warden.NewBasicContext` | warden/warden_local.go:190-192 | every field of the basic context is at its zero value: empty subject, scopes, issuer, audience and extra, zero issued-at and expiry |
| `Warden.LocalWarden.Decide` | warden/warden_local.go:131-166 | the meaning of `isAllowed`: the group-lookup error, or the combination of every identity's verdict; nothing is allowed unless the group lookup succeeded |
| `Warden.LocalWarden.constructor` | warden/warden_local.go:19-27 | the warden holds the policy decision point, group manager, introspection, access-token lifespan and issuer it is given |
| `Warden.LocalWarden.NewContext` | warden/warden_local.go:169-188 | subject, scopes and extra come from the session or request; issuer is the warden's, audience the client ID, issued-at the request time; a zero session expiry becomes request time plus lifespan, any other is copied |
| `Warden.LocalWarden.IsAllowedCore` | warden/warden_local.go:131-167 | filling the verdict array and running the forceful-deny scan and then the allow scan yields exactly `Decide`: the group-lookup error unchanged, or the combination of all identities' verdicts; no verdict is requested after a failed lookup, and otherwise exactly one per identity, subject first, then the groups in order |
| `Warden.LocalWarden.IsAllowed` | warden/warden_local.go:33-67 | returns nil exactly when the decision allows, and otherwise the decision's error unchanged |
| `Warden.LocalWarden.TokenAllowed` | warden/warden_local.go:69-129 | an introspection failure gives the empty context and that error; a denial gives a context whose only set field is the session subject, with the decision's error; an allow gives `NewContext` of the introspected request and nil |
| `WardenProperties.CombineRule` | warden/warden_local.go:154-166 | over the verdict list alone: forceful-deny reason iff some forceful deny; allowed iff no forceful deny and some allow; plain-denied reason iff every verdict is a plain deny |
| `WardenProperties.VerdictOccurs` | warden/warden_local.go:137-152 | a verdict occurs in the list exactly when some identity (subject or group) has that verdict |
| `WardenProperties.AllowedIff` | warden/warden_local.go:154-164 | allowed iff the group lookup succeeds, no identity is forcefully denied and some identity is allowed, even if the subject itself is plainly denied |
| `WardenProperties.ForcefullyDeniedIff` | warden/warden_local.go:154-158 | forbidden with the forceful-deny reason iff the lookup succeeds and some identity is forcefully denied, whatever the others allow |
| `WardenProperties.DefaultDenyIff` | warden/warden_local.go:166 | forbidden with the plain-denied reason iff the lookup succeeds and every identity is plainly denied |
| `WardenProperties.PolicyFailuresAreForbidden` | warden/warden_local.go:154-166 | after a successful lookup both denials carry the same "request forbidden" kind and differ only in reason |
| `WardenProperties.GroupLookupFailsClosed` | warden/warden_local.go:132-135 | a group-lookup failure is returned with its own text and never allows |
| `WardenProperties.NoGroupsOnlySubjectCounts` | warden/warden_local.go:137-166 | with no groups the subject's own verdict alone decides |
| `WardenProperties.OnlyGroupMembershipMatters` | warden/warden_local.go:145-166 | two group lists with the same members give the same outcome |
| `WardenProperties.GroupPermutationInvariant` | warden/warden_local.go:145-166 | permuting the groups never changes the outcome |
| `WardenProperties.ForceDenyCannotBeOutvoted` | warden/warden_local.go:154-158 | adding groups never lifts a forceful deny |
| `WardenProperties.AllowSurvivesMoreGroups` | warden/warden_local.go:160-164 | adding groups none of which is forcefully denied never revokes an allow |
| `WardenProperties.GrantedContextExpires` | warden/warden_local.go:172-175 | with a positive lifespan and a non-negative request time, a granted context never has the zero expiry |
| `WardenProperties.AliceAdminsScenario` | warden/warden_local.go:137-166 | "alice" plainly denied but in allowed group "admins" is allowed; forcefully denied, she is forbidden |

## Left out

- Logging (`w.L.WithFields…`) and `metrics.Increment`: side effects that do not affect the decision.
- `pkg.SanitizeForStatsd`: only feeds metric tags.
- `TokenFromRequest`: a one-line wrapper over the OAuth2 library's token extraction.
- The internals of token introspection and of policy matching: modelled as total functions.
- `context.Context` cancellation and timeouts: the model has no concurrency.
- The `*oauth2.Session` type assertion in `newContext`: the session is a record with the fields used.
- Error texts: the forceful-deny outcome does not carry the text of the verdict error it wraps, only the reason `ForcefullyDenied`.
- Collaborator errors are modelled as `Upstream(text)`, so a group-lookup or introspection error can never be mistaken for a "request forbidden" error.
- `time.Time` and `time.Duration`: integer nanoseconds without the 64-bit range limits or time zones.
- Go's `nil` versus empty slices and maps in the empty context: both are the empty sequence or map.
- The HTTP server in `cmd/server/handler.go` (TLS, middleware, routes, token clean-up loop) is not part of this model.
