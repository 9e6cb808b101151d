/**
 * The life of an approval over any run: PENDING, then perhaps APPROVED, then one of REJECTED,
 * EXPIRED and CONSUMED, with no step back and nothing of the request ever rewritten.
 */
module ApprovalLifecycle {
  import opened Core
  import opened World
  import opened PublishService
  import opened ApprovalsService
  import opened OrgService
  import opened RecommendationsService
  import opened Workflow

  // ---------- Monotone approvals ----------

  /** What a later state of an approval may look like. */
  ghost predicate Evolves(a: Approval, b: Approval) {
    && b.subject == a.subject && b.payload == a.payload && b.payloadHash == a.payloadHash
    && b.requestedBy == a.requestedBy && b.expiresAt == a.expiresAt
    && match a.status
       case PENDING => b.status == PENDING ==> b == a
       case APPROVED => b == a || b == a.(status := CONSUMED)
       case _ => b == a
  }

  ghost predicate AllEvolve(s: seq<Approval>, t: seq<Approval>) {
    |s| <= |t| && forall i :: 0 <= i < |s| ==> Evolves(s[i], t[i])
  }

  lemma ChangeEvolves(w: World, a: Action, c: Change)
    requires Allowed(w, a, c)
    ensures AllEvolve(w.approvals, Changed(w.approvals, c))
  {
    hide IsBudgetRequest, OtherApprovers;
  }

  lemma StepEvolves(w: World, a: Action)
    ensures AllEvolve(w.approvals, Next(w, a).approvals)
  {
    hide Next, Allowed, Changed;
    var c := StepChanges(w, a);
    ChangeEvolves(w, a, c);
  }

  lemma AllEvolveTrans(s: seq<Approval>, t: seq<Approval>, u: seq<Approval>)
    requires AllEvolve(s, t) && AllEvolve(t, u)
    ensures AllEvolve(s, u)
  {
    forall i | 0 <= i < |s| ensures Evolves(s[i], u[i]) { assert Evolves(s[i], t[i]) && Evolves(t[i], u[i]); }
  }

  /** Over any stretch of any run every approval evolves, and none disappears. */
  lemma {:induction false} ApprovalsAreMonotone(w: World, acts: seq<Action>, k: nat)
    requires k <= |acts|
    ensures AllEvolve(After(w, acts[..k]).approvals, After(w, acts).approvals)
    decreases |acts|
  {
    hide Next, AllEvolve;
    if k == |acts| {
      assert acts[..k] == acts;
      SelfEvolves(After(w, acts).approvals);
    } else {
      var front := acts[..|acts| - 1];
      assert front[..k] == acts[..k];
      ApprovalsAreMonotone(w, front, k);
      StepEvolves(After(w, front), acts[|acts| - 1]);
      AllEvolveTrans(After(w, acts[..k]).approvals, After(w, front).approvals, After(w, acts).approvals);
    }
  }

  lemma SelfEvolves(s: seq<Approval>)
    ensures AllEvolve(s, s)
  {
  }

  // ---------- Well-formed approvals, and at most one pending request ----------

  ghost predicate Typed(a: Approval) {
    && a.payloadHash == HashOf(a.payload)
    && match a.subject
       case CampaignPublish(_) => a.payload.PublishPayload?
       case TestLaunch(t) => a.payload.LaunchPayload? && a.payload.spec.abTestId == t && a.status != APPROVED
       case BudgetOf(_) =>
         && a.payload.BudgetPayload? && a.status != APPROVED
         && (a.payload.newBudget == Stepped(ScaleBudget, a.payload.currentBudget)
             || a.payload.newBudget == Stepped(ReduceBudget, a.payload.currentBudget))
  }

  /** Publish and launch requests supersede each other; budget requests may pile up. */
  ghost predicate OnePending(s: seq<Approval>) {
    forall i, j :: 0 <= i < j < |s| && s[i].status == PENDING && s[j].status == PENDING && s[i].subject == s[j].subject ==>
      s[i].subject.BudgetOf?
  }

  ghost predicate Sound(s: seq<Approval>) { (forall i :: 0 <= i < |s| ==> Typed(s[i])) && OnePending(s) }

  lemma ChangeKeepsSound(w: World, a: Action, c: Change)
    requires Allowed(w, a, c) && Sound(w.approvals)
    ensures Sound(Changed(w.approvals, c))
  {
    hide OtherApprovers, Stepped;
  }

  lemma StepKeepsSound(w: World, a: Action)
    requires Sound(w.approvals)
    ensures Sound(Next(w, a).approvals)
  {
    hide Next, Allowed, Changed, Sound;
    var c := StepChanges(w, a);
    ChangeKeepsSound(w, a, c);
  }

  /** In every run at most one publish request per campaign and one launch request per test is PENDING. */
  lemma {:induction false} AtMostOnePending(w: World, acts: seq<Action>)
    requires Sound(w.approvals)
    ensures Sound(After(w, acts).approvals)
    decreases |acts|
  {
    hide Next, Sound;
    if acts != [] {
      AtMostOnePending(w, acts[..|acts| - 1]);
      StepKeepsSound(After(w, acts[..|acts| - 1]), acts[|acts| - 1]);
    }
  }

  // ---------- Who approved, and who may ----------

  predicate IsGranted(s: ApprovalStatus) { s == APPROVED || s == CONSUMED }

  /**
   * Every approval that ends up APPROVED or CONSUMED was granted by an approving decision in the
   * run, whose maker is on record and was not the requester, unless nobody else could approve then.
   */
  lemma {:induction false} GrantedBySomeoneElse(w: World, acts: seq<Action>, aid: nat) returns (k: nat)
    requires aid < |After(w, acts).approvals| && IsGranted(After(w, acts).approvals[aid].status)
    requires aid < |w.approvals| ==> !IsGranted(w.approvals[aid].status)
    ensures k < |acts| && acts[k].DoDecide? && acts[k].aid == aid && acts[k].approve
    ensures var v, end := After(w, acts[..k]), After(w, acts).approvals[aid];
      && aid < |v.approvals| && v.approvals[aid].status == PENDING
      && end.decidedBy == Some(acts[k].user.id)
      && (acts[k].user.id == end.requestedBy ==> OtherApprovers(v.members, end.requestedBy) == {})
    decreases |acts|
  {
    hide Next, OtherApprovers;
    var n := |acts| - 1;
    assert acts != [];
    var front := acts[..n];
    var before := After(w, front);
    assert Next(before, acts[n]) == After(w, acts);
    StepEvolves(before, acts[n]);
    if aid < |before.approvals| && IsGranted(before.approvals[aid].status) {
      k := GrantedBySomeoneElse(w, front, aid);
      assert front[..k] == acts[..k];
      assert Evolves(before.approvals[aid], After(w, acts).approvals[aid]);
    } else {
      k := n;
      GrantIsDecision(before, acts[n], aid);
    }
  }

  lemma GrantIsDecision(w: World, a: Action, aid: nat)
    requires aid < |Next(w, a).approvals| && IsGranted(Next(w, a).approvals[aid].status)
    requires aid < |w.approvals| ==> !IsGranted(w.approvals[aid].status)
    ensures a.DoDecide? && a.aid == aid && a.approve && aid < |w.approvals| && w.approvals[aid].status == PENDING
    ensures var end := Next(w, a).approvals[aid];
      && end.decidedBy == Some(a.user.id)
      && (a.user.id == end.requestedBy ==> OtherApprovers(w.members, end.requestedBy) == {})
  {
    hide Next, IsBudgetRequest, OtherApprovers;
    var c := StepChanges(w, a);
    assert c.DecidedOne?;
    if a.user.id == w.approvals[aid].requestedBy {
      assert |OtherApprovers(w.members, a.user.id)| == 0;
    }
  }

  /** The maker-checker rule never locks a request out: some privileged member's approval passes the guard. */
  lemma SomeoneMayApprove(w: World, aid: nat) returns (m: Id)
    requires HasPrivileged(w.members) && aid < |w.approvals| && w.approvals[aid].status == PENDING
    ensures m in w.members && w.members[m].role in {Admin, AgencyOwner}
    ensures DecideGuard(w, User(w.members[m].userId, w.members[m].role, w.members[m].clientScope), aid, true) == Ok(w.approvals[aid])
  {
    var requester := w.approvals[aid].requestedBy;
    var others := OtherApprovers(w.members, requester);
    if others != {} {
      m :| m in others;
    } else {
      m :| m in w.members && w.members[m].role in {Admin, AgencyOwner};
    }
  }

  /** Exactly who is turned away: a requester approving their own request while another approver exists. */
  lemma TurnedAwayIff(w: World, user: User, aid: nat, approve: bool)
    requires aid < |w.approvals| && w.approvals[aid].status == PENDING
    ensures DecideGuard(w, user, aid, approve).Err? <==>
      approve && user.id == w.approvals[aid].requestedBy
      && exists m :: m in w.members && w.members[m].role in {Admin, AgencyOwner} && w.members[m].userId != user.id
  {
    var others := OtherApprovers(w.members, user.id);
    if |others| > 0 {
      var m :| m in others;
      assert m in w.members;
    } else {
      assert others == {};
      assert forall m :: m in w.members && IsPrivileged(w.members[m].role) && w.members[m].userId != user.id ==> m in others;
    }
  }

  /** A publish decision goes through for everybody else, if the database takes both of its updates. */
  lemma DecisionGoesThroughIff(w: World, user: User, aid: nat, approve: bool, env: Env)
    requires aid < |w.approvals| && w.approvals[aid].status == PENDING && w.approvals[aid].subject.CampaignPublish?
    ensures DecideSpec(w, user, aid, approve, env).1.Ok? <==>
      && env.commitOk && env.followUpOk
      && !(approve && user.id == w.approvals[aid].requestedBy
           && exists m :: m in w.members && w.members[m].role in {Admin, AgencyOwner} && w.members[m].userId != user.id)
  {
    hide DecideGuard;
    TurnedAwayIff(w, user, aid, approve);
    GuardGives(w, user, aid, approve);
  }

  lemma GuardGives(w: World, user: User, aid: nat, approve: bool)
    ensures DecideGuard(w, user, aid, approve).Ok? ==> aid < |w.approvals| && DecideGuard(w, user, aid, approve).value == w.approvals[aid]
  {
  }

  lemma StepKeepsPrivileged(w: World, a: Action)
    requires HasPrivileged(w.members)
    ensures HasPrivileged(Next(w, a).members)
  {
    hide HasPrivileged, RequestSpec, PublishSpec, DecideSpec, AddMemberSpec, UpdateMemberSpec, RemoveMemberSpec;
    match a
    case DoAddMember(mid, uid, email, role, scope, env) => AddKeepsPrivileged(w, mid, uid, email, role, scope, env);
    case DoUpdateMember(mid, change, newScope, env) => UpdateKeepsPrivileged(w, mid, change, newScope, env);
    case DoRemoveMember(mid, env) => RemoveKeepsPrivileged(w, mid, env);
    case _ => OthersKeepMembers(w, a);
  }

  lemma OthersKeepMembers(w: World, a: Action)
    requires !a.DoAddMember? && !a.DoUpdateMember? && !a.DoRemoveMember?
    ensures Next(w, a).members == w.members
  {
    hide Next;
    StepWritesOnly(w, a);
  }

  /** So in every run, every PENDING approval has a member who may approve it. */
  lemma {:induction false} NoDeadlock(w: World, acts: seq<Action>, aid: nat) returns (m: Id)
    requires HasPrivileged(w.members)
    requires aid < |After(w, acts).approvals| && After(w, acts).approvals[aid].status == PENDING
    ensures var v := After(w, acts);
      && m in v.members && v.members[m].role in {Admin, AgencyOwner}
      && DecideGuard(v, User(v.members[m].userId, v.members[m].role, v.members[m].clientScope), aid, true).Ok?
  {
    hide Next;
    PrivilegedAfter(w, acts);
    m := SomeoneMayApprove(After(w, acts), aid);
  }

  lemma {:induction false} PrivilegedAfter(w: World, acts: seq<Action>)
    requires HasPrivileged(w.members)
    ensures HasPrivileged(After(w, acts).members)
    decreases |acts|
  {
    hide Next, HasPrivileged;
    if acts != [] {
      PrivilegedAfter(w, acts[..|acts| - 1]);
      StepKeepsPrivileged(After(w, acts[..|acts| - 1]), acts[|acts| - 1]);
    }
  }

  // ---------- One membership per user ----------

  lemma StepKeepsOneRowEach(w: World, a: Action)
    requires OneRowEach(w)
    ensures OneRowEach(Next(w, a))
  {
    hide RequestSpec, PublishSpec, DecideSpec, AddMemberSpec, UpdateMemberSpec, RemoveMemberSpec, OneRowEach;
    match a
    case DoAddMember(mid, uid, email, role, scope, env) => AddKeepsOneRowEach(w, mid, uid, email, role, scope, env);
    case DoUpdateMember(mid, change, newScope, env) => UpdateKeepsOneRowEach(w, mid, change, newScope, env);
    case DoRemoveMember(mid, env) => RemoveKeepsOneRowEach(w, mid, env);
    case _ => OthersKeepUsers(w, a);
  }

  lemma OthersKeepUsers(w: World, a: Action)
    requires OneRowEach(w) && !a.DoAddMember? && !a.DoUpdateMember? && !a.DoRemoveMember?
    ensures OneRowEach(Next(w, a))
  {
    hide Next;
    StepWritesOnly(w, a);
  }

  /** Over every run a user has one row per email and is a member at most once. */
  lemma {:induction false} UsersAreMembersOnce(w: World, acts: seq<Action>)
    requires OneRowEach(w)
    ensures OneRowEach(After(w, acts))
    decreases |acts|
  {
    hide Next, OneRowEach;
    if acts != [] {
      UsersAreMembersOnce(w, acts[..|acts| - 1]);
      StepKeepsOneRowEach(After(w, acts[..|acts| - 1]), acts[|acts| - 1]);
    }
  }
}
