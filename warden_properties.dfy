/** Properties of the warden's decision: the combination rule restated per
    identity, independence from group order, monotonicity in the group list,
    and the expiry of a granted context. */
module WardenProperties {
  import opened Wrappers
  import opened Warden

  /** A verdict occurs in the verdict list exactly when some identity has it. */
  lemma {:induction false} VerdictOccurs(policy: Request -> Decision, a: Request, gs: seq<string>, d: Decision)
    ensures d in Verdicts(policy, a, gs) <==>
      exists id :: id in Identities(a.subject, gs) && VerdictFor(policy, a, id) == d
  {
    var ids := Identities(a.subject, gs);
    var vs := Verdicts(policy, a, gs);
    if d in vs {
      var i :| 0 <= i < |vs| && vs[i] == d;
      assert ids[i] in ids && VerdictFor(policy, a, ids[i]) == d;
    }
    if exists id :: id in ids && VerdictFor(policy, a, id) == d {
      var id :| id in ids && VerdictFor(policy, a, id) == d;
      var i :| 0 <= i < |ids| && ids[i] == id;
      assert vs[i] == d;
    }
  }

  /** The combination rule in both directions, over the verdict list alone. */
  lemma CombineRule(vs: seq<Decision>)
    ensures Combine(vs) == Some(RequestForbidden(ForcefullyDenied)) <==> ForceDeny in vs
    ensures Combine(vs) == None <==> ForceDeny !in vs && Allow in vs
    ensures Combine(vs) == Some(RequestForbidden(Denied)) <==> forall i :: 0 <= i < |vs| ==> vs[i] == Deny
  {
    if forall i :: 0 <= i < |vs| ==> vs[i] == Deny {
      assert ForceDeny !in vs && Allow !in vs;
    }
  }

  /** A request is allowed exactly when the group lookup succeeds, no
      identity is forcefully denied and some identity is allowed; the
      subject's own plain deny does not prevent it. */
  lemma AllowedIff(w: LocalWarden, a: Request)
    ensures w.Decide(a) == None <==>
      w.groups(a.subject).Success? &&
      (forall id :: id in Identities(a.subject, w.groups(a.subject).value) ==> VerdictFor(w.policy, a, id) != ForceDeny) &&
      (exists id :: id in Identities(a.subject, w.groups(a.subject).value) && VerdictFor(w.policy, a, id) == Allow)
  {
    if w.groups(a.subject).Success? {
      var gs := w.groups(a.subject).value;
      VerdictOccurs(w.policy, a, gs, ForceDeny);
      VerdictOccurs(w.policy, a, gs, Allow);
    }
  }

  /** A forceful deny of any identity forbids the request, whatever the
      other identities allow, and it is the only way to that reason. */
  lemma ForcefullyDeniedIff(w: LocalWarden, a: Request)
    ensures w.Decide(a) == Some(RequestForbidden(ForcefullyDenied)) <==>
      w.groups(a.subject).Success? &&
      exists id :: id in Identities(a.subject, w.groups(a.subject).value) && VerdictFor(w.policy, a, id) == ForceDeny
  {
    if w.groups(a.subject).Success? {
      VerdictOccurs(w.policy, a, w.groups(a.subject).value, ForceDeny);
    }
  }

  /** The default deny: the request is forbidden with the plain-denied reason
      exactly when every identity's verdict is a plain deny. */
  lemma DefaultDenyIff(w: LocalWarden, a: Request)
    ensures w.Decide(a) == Some(RequestForbidden(Denied)) <==>
      w.groups(a.subject).Success? &&
      forall id :: id in Identities(a.subject, w.groups(a.subject).value) ==> VerdictFor(w.policy, a, id) == Deny
  {
    if w.groups(a.subject).Success? {
      var gs := w.groups(a.subject).value;
      VerdictOccurs(w.policy, a, gs, ForceDeny);
      VerdictOccurs(w.policy, a, gs, Allow);
      if w.Decide(a) == Some(RequestForbidden(Denied)) {
        forall id | id in Identities(a.subject, gs)
          ensures VerdictFor(w.policy, a, id) == Deny
        {
          VerdictOccurs(w.policy, a, gs, VerdictFor(w.policy, a, id));
        }
      }
    }
  }

  /** Every failure after a successful group lookup is of the one kind
      "request forbidden": a caller cannot tell a forceful deny from a plain
      one by the kind of error. This is the first ensures of `Combine`,
      restated for the warden's decision. */
  lemma PolicyFailuresAreForbidden(w: LocalWarden, a: Request)
    requires w.groups(a.subject).Success?
    ensures w.Decide(a) != None ==> w.Decide(a).value.RequestForbidden?
  {
  }

  /** A failed group lookup is passed on with its own text and never allows. */
  lemma GroupLookupFailsClosed(w: LocalWarden, a: Request)
    requires w.groups(a.subject).Failure?
    ensures w.Decide(a) == Some(Upstream(w.groups(a.subject).error))
  {
  }

  /** With no groups, the subject's own verdict alone decides. */
  lemma NoGroupsOnlySubjectCounts(w: LocalWarden, a: Request)
    requires w.groups(a.subject) == Success([])
    ensures w.Decide(a) == match w.policy(a)
      case Allow => None
      case Deny => Some(RequestForbidden(Denied))
      case ForceDeny => Some(RequestForbidden(ForcefullyDenied))
  {
    assert Verdicts(w.policy, a, []) == [w.policy(a)];
  }

  /** Only which groups occur matters: reordering the groups, or repeating
      one, never changes the outcome. */
  lemma OnlyGroupMembershipMatters(policy: Request -> Decision, a: Request, gs1: seq<string>, gs2: seq<string>)
    requires forall g :: g in gs1 <==> g in gs2
    ensures Combine(Verdicts(policy, a, gs1)) == Combine(Verdicts(policy, a, gs2))
  {
    CombineRule(Verdicts(policy, a, gs1));
    CombineRule(Verdicts(policy, a, gs2));
    VerdictOccurs(policy, a, gs1, ForceDeny);
    VerdictOccurs(policy, a, gs2, ForceDeny);
    VerdictOccurs(policy, a, gs1, Allow);
    VerdictOccurs(policy, a, gs2, Allow);
  }

  /** Permuting the groups never changes allow versus forbidden. */
  lemma GroupPermutationInvariant(policy: Request -> Decision, a: Request, gs1: seq<string>, gs2: seq<string>)
    requires multiset(gs1) == multiset(gs2)
    ensures Combine(Verdicts(policy, a, gs1)) == Combine(Verdicts(policy, a, gs2))
  {
    forall g
      ensures g in gs1 <==> g in gs2
    {
      assert g in gs1 <==> g in multiset(gs1);
      assert g in gs2 <==> g in multiset(gs2);
    }
    OnlyGroupMembershipMatters(policy, a, gs1, gs2);
  }

  /** A forceful deny cannot be outvoted by adding groups, however
      permissive their policies. */
  lemma ForceDenyCannotBeOutvoted(policy: Request -> Decision, a: Request, gs: seq<string>, more: seq<string>)
    requires Combine(Verdicts(policy, a, gs)) == Some(RequestForbidden(ForcefullyDenied))
    ensures Combine(Verdicts(policy, a, gs + more)) == Some(RequestForbidden(ForcefullyDenied))
  {
    CombineRule(Verdicts(policy, a, gs));
    CombineRule(Verdicts(policy, a, gs + more));
    VerdictOccurs(policy, a, gs, ForceDeny);
    VerdictOccurs(policy, a, gs + more, ForceDeny);
    var id :| id in Identities(a.subject, gs) && VerdictFor(policy, a, id) == ForceDeny;
    assert id in Identities(a.subject, gs + more);
  }

  /** An allowed request stays allowed when groups are added none of which
      is forcefully denied: group membership only ever adds permissions. */
  lemma AllowSurvivesMoreGroups(policy: Request -> Decision, a: Request, gs: seq<string>, more: seq<string>)
    requires Combine(Verdicts(policy, a, gs)) == None
    requires forall g :: g in more ==> VerdictFor(policy, a, g) != ForceDeny
    ensures Combine(Verdicts(policy, a, gs + more)) == None
  {
    CombineRule(Verdicts(policy, a, gs));
    CombineRule(Verdicts(policy, a, gs + more));
    VerdictOccurs(policy, a, gs, ForceDeny);
    VerdictOccurs(policy, a, gs, Allow);
    VerdictOccurs(policy, a, gs + more, ForceDeny);
    VerdictOccurs(policy, a, gs + more, Allow);
    var id :| id in Identities(a.subject, gs) && VerdictFor(policy, a, id) == Allow;
    assert id in Identities(a.subject, gs + more);
  }

  /** A granted context always carries an expiry: with a positive lifespan
      and a request time after Go's zero time, the fallback is never zero. */
  lemma GrantedContextExpires(w: LocalWarden, auth: AccessRequester)
    requires w.accessTokenLifespan > 0 && auth.requestedAt >= 0
    ensures !IsZero(w.NewContext(auth).expiresAt)
    ensures IsZero(auth.session.accessTokenExpiresAt) ==> w.NewContext(auth).expiresAt > auth.requestedAt
  {
  }

  /** Subject "alice" in group "admins": a plain deny for alice and an allow
      for admins allows; a forceful deny for alice forbids. */
  lemma AliceAdminsScenario(resource: string, action: string, ctx: map<string, string>)
    ensures var a := Request(resource, action, "alice", ctx);
      Combine(Verdicts((r: Request) => if r.subject == "admins" then Allow else Deny, a, ["admins"])) == None
    ensures var a := Request(resource, action, "alice", ctx);
      Combine(Verdicts((r: Request) => if r.subject == "admins" then Allow else ForceDeny, a, ["admins"]))
        == Some(RequestForbidden(ForcefullyDenied))
  {
    var a := Request(resource, action, "alice", ctx);
    assert Verdicts((r: Request) => if r.subject == "admins" then Allow else Deny, a, ["admins"]) == [Deny, Allow];
    assert Verdicts((r: Request) => if r.subject == "admins" then Allow else ForceDeny, a, ["admins"]) == [ForceDeny, Allow];
  }
}
