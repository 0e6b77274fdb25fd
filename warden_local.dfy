/** The local warden: the authorization decision engine of the OAuth2 server.
    It expands a subject into its identities (the subject and its groups),
    asks the policy decision point for one verdict per identity, combines the
    verdicts into one allow/forbid answer, and builds the caller-facing
    authorization context for a bearer token.

    The policy decision point, the group manager and the token introspector
    are collaborators whose internals are not modelled: they are total
    functions held by the warden. */
module Warden {
  import opened Wrappers

  /** A point in time, counted in nanoseconds from Go's zero `time.Time`
      (January 1, year 1, UTC). So the zero value is the sentinel "no time". */
  type Time = int

  /** A `time.Duration` in nanoseconds. */
  type Duration = int

  /** `time.Time.IsZero`. */
  predicate IsZero(t: Time) {
    t == 0
  }

  /** `time.Time.Add`. */
  function Add(t: Time, d: Duration): Time {
    t + d
  }

  /** The verdict of the policy decision point for one identity.
      `Allow` is a `nil` error, `ForceDeny` an error whose cause is
      ladon's forceful-deny sentinel, `Deny` any other error. */
  datatype Decision = Allow | Deny | ForceDeny

  /** The reason text wrapped into a "request forbidden" error. */
  datatype DenyReason = ForcefullyDenied | Denied

  /** The errors the warden returns. Both policy outcomes have the same kind,
      `RequestForbidden`, and differ only in the wrapped reason. A
      collaborator's own error is passed on as `Upstream` with its text. */
  datatype Error =
    | RequestForbidden(reason: DenyReason)
    | Upstream(message: string)

  /** An access request: `ladon.Request`, and `firewall.AccessRequest`,
      which has the same four fields. */
  datatype Request = Request(resource: string, action: string, subject: string, context: map<string, string>)

  /** A token access request: the subject is found by introspection. */
  datatype TokenAccessRequest = TokenAccessRequest(resource: string, action: string, context: map<string, string>)

  /** The fields of the introspected `oauth2.Session` the warden reads.
      `accessTokenExpiresAt` is the zero time when the session has none. */
  datatype Session = Session(subject: string, accessTokenExpiresAt: Time, extra: map<string, string>)

  /** The introspected access request (`fosite.AccessRequester`). */
  datatype AccessRequester = AccessRequester(
    session: Session,
    clientId: string,
    grantedScopes: seq<string>,
    requestedAt: Time)

  /** The caller-facing `firewall.Context`. */
  datatype Context = Context(
    subject: string,
    grantedScopes: seq<string>,
    issuer: string,
    audience: string,
    issuedAt: Time,
    expiresAt: Time,
    extra: map<string, string>)

  /** `newBasicContext`: the context with every field at its zero value. */
  function NewBasicContext(): (c: Context)
    ensures c.subject == "" && c.grantedScopes == [] && c.issuer == "" && c.audience == ""
    ensures IsZero(c.issuedAt) && IsZero(c.expiresAt) && c.extra == map[]
  {
    Context("", [], "", "", 0, 0, map[])
  }

  /** The identities a request is evaluated for: the subject, then its groups. */
  function Identities(subject: string, groups: seq<string>): seq<string> {
    [subject] + groups
  }

  /** The verdict for identity `id`: the same resource, action and context as
      `a`, with `id` as the acting subject. */
  function VerdictFor(policy: Request -> Decision, a: Request, id: string): Decision {
    policy(Request(a.resource, a.action, id, a.context))
  }

  /** The verdict list, one entry per identity: entry 0 is the subject's
      own verdict on the request as given, entry k + 1 that of group k. */
  function Verdicts(policy: Request -> Decision, a: Request, groups: seq<string>): (vs: seq<Decision>)
    ensures |vs| == |groups| + 1
    ensures vs[0] == policy(a)
    ensures forall k :: 0 <= k < |groups| ==> vs[k + 1] == policy(a.(subject := groups[k]))
  {
    var ids := Identities(a.subject, groups);
    seq(|ids|, i requires 0 <= i < |ids| => VerdictFor(policy, a, ids[i]))
  }

  /** The combination rule: a forceful deny anywhere wins; otherwise an allow
      anywhere wins; otherwise the default deny. */
  function Combine(vs: seq<Decision>): (err: Option<Error>)
    ensures err != None ==> err.value.RequestForbidden?
    ensures err == None ==> Allow in vs
  {
    if ForceDeny in vs then Some(RequestForbidden(ForcefullyDenied))
    else if Allow in vs then None
    else Some(RequestForbidden(Denied))
  }

  /** `LocalWarden`. Its fields are configuration, set once and only read. */
  class LocalWarden {
    /** The policy decision point (`ladon.Warden.IsAllowed`). */
    const policy: Request -> Decision
    /** The group manager (`group.Manager.FindGroupNames`); a failure carries the error text. */
    const groups: string -> Result<seq<string>, string>
    /** Token introspection (`fosite.OAuth2Provider.IntrospectToken` for an
        access token) of a token under the required scopes. */
    const introspect: (string, seq<string>) -> Result<AccessRequester, string>
    const accessTokenLifespan: Duration
    const issuer: string

    constructor (
      policy: Request -> Decision,
      groups: string -> Result<seq<string>, string>,
      introspect: (string, seq<string>) -> Result<AccessRequester, string>,
      accessTokenLifespan: Duration,
      issuer: string)
      ensures this.policy == policy && this.groups == groups && this.introspect == introspect
      ensures this.accessTokenLifespan == accessTokenLifespan && this.issuer == issuer
    {
      this.policy := policy;
      this.groups := groups;
      this.introspect := introspect;
      this.accessTokenLifespan := accessTokenLifespan;
      this.issuer := issuer;
    }

    /** What `isAllowed` answers for request `a`: the group manager's error,
        or the combination of the verdicts of all identities. */
    function Decide(a: Request): (r: Option<Error>)
      ensures r == None ==> groups(a.subject).Success?
    {
      match groups(a.subject)
      case Failure(e) => Some(Upstream(e))
      case Success(gs) => Combine(Verdicts(policy, a, gs))
    }

    /** `newContext`: the context granted for an introspected request. An
        access token without an expiry expires one lifespan after it was
        requested. */
    function NewContext(auth: AccessRequester): (c: Context)
      ensures c.subject == auth.session.subject
      ensures c.grantedScopes == auth.grantedScopes && c.extra == auth.session.extra
      ensures c.issuer == issuer && c.audience == auth.clientId && c.issuedAt == auth.requestedAt
      ensures IsZero(auth.session.accessTokenExpiresAt) ==> c.expiresAt == auth.requestedAt + accessTokenLifespan
      ensures !IsZero(auth.session.accessTokenExpiresAt) ==> c.expiresAt == auth.session.accessTokenExpiresAt
    {
      var exp := auth.session.accessTokenExpiresAt;
      var exp := if IsZero(exp) then Add(auth.requestedAt, accessTokenLifespan) else exp;
      Context(auth.session.subject, auth.grantedScopes, issuer, auth.clientId, auth.requestedAt, exp, auth.session.extra)
    }

    /** `isAllowed`: look the groups up, fill one verdict per identity into
        `errs`, then scan for a forceful deny and after that for an allow.
        `asked` records, in order, the identity of every request put to the
        policy decision point. */
    method IsAllowedCore(a: Request) returns (err: Option<Error>, ghost asked: seq<string>)
      ensures err == Decide(a)
      ensures groups(a.subject).Failure? ==> asked == []
      ensures groups(a.subject).Success? ==> asked == Identities(a.subject, groups(a.subject).value)
    {
      asked := [];
      var lookup := groups(a.subject);
      if lookup.Failure? {
        return Some(Upstream(lookup.error)), asked;
      }
      var gs := lookup.value;

      // Go's make([]error, n) starts every entry at nil, that is, Allow.
      var errs := new Decision[|gs| + 1](_ => Allow);
      errs[0] := policy(Request(a.resource, a.action, a.subject, a.context));
      asked := asked + [a.subject];
      for k := 0 to |gs|
        invariant errs[0] == policy(a)
        invariant forall j :: 0 <= j < k ==> errs[j + 1] == policy(a.(subject := gs[j]))
        invariant asked == Identities(a.subject, gs[..k])
      {
        errs[k + 1] := policy(Request(a.resource, a.action, gs[k], a.context));
        asked := asked + [gs[k]];
      }
      assert errs[..] == Verdicts(policy, a, gs);
      assert gs[..|gs|] == gs;

      for i := 0 to errs.Length
        invariant ForceDeny !in errs[..i]
      {
        if errs[i] == ForceDeny {
          return Some(RequestForbidden(ForcefullyDenied)), asked;
        }
      }
      assert errs[..errs.Length] == errs[..];

      for i := 0 to errs.Length
        invariant Allow !in errs[..i]
      {
        if errs[i] == Allow {
          return None, asked;
        }
      }
      assert errs[..errs.Length] == errs[..];

      return Some(RequestForbidden(Denied)), asked;
    }

    /** `IsAllowed`: the decision for a pre-authenticated request; `None`
        (nil) means allowed. Logging and metrics are not modelled. */
    method IsAllowed(a: Request) returns (err: Option<Error>)
      ensures err == Decide(a)
    {
      ghost var asked;
      err, asked := IsAllowedCore(Request(a.resource, a.action, a.subject, a.context));
    }

    /** `TokenAllowed`: introspect the token, decide for the session's
        subject, and build the context. Whenever an error is returned, only
        the subject of the context may be set, and it is set exactly when
        introspection succeeded. */
    method TokenAllowed(token: string, a: TokenAccessRequest, scopes: seq<string>)
      returns (c: Context, err: Option<Error>)
      ensures introspect(token, scopes).Failure? ==>
        c == NewBasicContext() && err == Some(Upstream(introspect(token, scopes).error))
      ensures introspect(token, scopes).Success? ==>
        var auth := introspect(token, scopes).value;
        var verdict := Decide(Request(a.resource, a.action, auth.session.subject, a.context));
        err == verdict &&
        c == if verdict == None then NewContext(auth) else NewBasicContext().(subject := auth.session.subject)
      ensures err != None ==> c.(subject := "") == NewBasicContext()
    {
      c := NewBasicContext();
      var introspection := introspect(token, scopes);
      if introspection.Failure? {
        return c, Some(Upstream(introspection.error));
      }
      var auth := introspection.value;
      var session := auth.session;
      ghost var asked;
      err, asked := IsAllowedCore(Request(a.resource, a.action, session.subject, a.context));
      if err != None {
        c := c.(subject := session.subject);
        return c, err;
      }
      c := NewContext(auth);
      return c, None;
    }
  }
}
