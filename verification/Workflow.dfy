/**
 * Runs of the whole system: any sequence of requests, each with any outcome of its surroundings,
 * mixed with what else may happen to the tables and on Meta between them.
 */
module Workflow {
  import opened Core
  import opened MetaStore
  import opened Rows
  import opened World
  import opened AbStatistics
  import opened Attribution
  import opened PublishService
  import opened ApprovalsService
  import opened AbTestsService
  import opened OrgService
  import opened CampaignsService
  import opened RecommendationsService

  datatype Action =
    | DoRequestApproval(user: User, cid: Id, env: Env)
    | DoDecide(user: User, aid: nat, approve: bool, env: Env)
    | DoPublish(cid: Id, env: Env)
    | DoPause(cid: Id, env: Env)
    | DoCreateTest(user: User, cid: Id, input: TestInput, env: Env)
    | DoRequestLaunch(user: User, tid: nat, env: Env)
    | DoCancel(user: User, tid: nat, env: Env)
    | DoRefresh(ar: Arith, user: User, tid: nat, cells: seq<LiveCell>, env: Env)
    | DoApply(user: User, rid: Id, env: Env)
    | DoAddMember(mid: Id, uid: Id, email: string, role: Role, scope: seq<Id>, env: Env)
    | DoUpdateMember(mid: Id, change: Option<Role>, newScope: Option<seq<Id>>, env: Env)
    | DoRemoveMember(mid: Id, env: Env)
    | DoCreateDraft(user: User, cid: Id, draft: DraftInput, clientFound: bool, env: Env)
    | DoUpdate(user: User, cid: Id, edit: CampaignEdit, env: Env)
    // Ads are generated and edited, and the database may scan rows in any order.
    | DraftsRewritten(adSets: map<Id, AdSetRow>, adSetScan: seq<Id>, ads: map<Id, AdRow>, adScan: seq<Id>, creatives: map<Id, CreativeRow>)
    | AccountsSelected(accounts: map<Id, Account>)
    | RecommendationsChanged(recs: map<Id, Recommendation>)
    | StudyEnds(study: nat)

  ghost function Next(w: World, a: Action): World {
    match a
    case DoRequestApproval(user, cid, env) => RequestSpec(w, user, cid, env).0
    case DoDecide(user, aid, approve, env) => DecideSpec(w, user, aid, approve, env).0
    case DoPublish(cid, env) => PublishSpec(w, cid, env).0
    case DoPause(cid, env) => PauseSpec(w, cid, env).0
    case DoCreateTest(user, cid, input, env) => CreateTestSpec(w, user, cid, input, env).0
    case DoRequestLaunch(user, tid, env) => RequestLaunchSpec(w, user, tid, env).0
    case DoCancel(user, tid, env) => CancelSpec(w, user, tid, env).0
    case DoRefresh(ar, user, tid, cells, env) => if IsArith(ar) then RefreshSpec(w, ar, user, tid, cells, env).0 else w
    case DoApply(user, rid, env) => ApplySpec(w, user, rid, env).0
    case DoAddMember(mid, uid, email, role, scope, env) => AddMemberSpec(w, mid, uid, email, role, scope, env).0
    case DoUpdateMember(mid, change, newScope, env) => UpdateMemberSpec(w, mid, change, newScope, env).0
    case DoRemoveMember(mid, env) => RemoveMemberSpec(w, mid, env).0
    case DoCreateDraft(user, cid, draft, found, env) => CreateDraftSpec(w, user, cid, draft, found, env).0
    case DoUpdate(user, cid, edit, env) => UpdateSpec(w, user, cid, edit, env).0
    case DraftsRewritten(adSets, adSetScan, ads, adScan, creatives) =>
      w.(content := Content(w.content.campaigns, adSets, adSetScan, ads, adScan, creatives))
    case AccountsSelected(accounts) => w.(accounts := accounts)
    case RecommendationsChanged(recs) => w.(recs := recs)
    case StudyEnds(study) => w.(meta := EndStudy(w.meta, study))
  }

  /** The world after a run. */
  ghost function After(w: World, acts: seq<Action>): World
    decreases |acts|
  {
    if acts == [] then w else Next(After(w, acts[..|acts| - 1]), acts[|acts| - 1])
  }

  lemma AfterNext(w: World, acts: seq<Action>, k: nat)
    requires k < |acts|
    ensures After(w, acts[..k + 1]) == Next(After(w, acts[..k]), acts[k])
  {
    assert acts[..k + 1][..k] == acts[..k];
  }

  // ---------- What a step may write ----------

  /** The tables each action may write, and whether it may reach Meta; everything else stays as it is. */
  ghost predicate WritesOnly(w: World, v: World, a: Action) {
    match a
    case DoRequestApproval(_, _, _) => v == w.(approvals := v.approvals, content := v.content)
    case DoDecide(_, _, _, _) =>
      v == w.(approvals := v.approvals, tests := v.tests, content := v.content, meta := v.meta, launchedFor := v.launchedFor)
    case DoPublish(_, _) => v == w.(approvals := v.approvals, content := v.content, meta := v.meta)
    case DoPause(_, _) => v == w.(content := v.content, meta := v.meta)
    case DoCreateTest(_, _, _, _) => v == w.(tests := v.tests)
    case DoRequestLaunch(_, _, _) => v == w.(approvals := v.approvals, tests := v.tests)
    case DoCancel(_, _, _) => v == w.(approvals := v.approvals, tests := v.tests, meta := v.meta)
    case DoRefresh(_, _, _, _, _) => v == w.(tests := v.tests)
    case DoApply(_, _, _) => v == w.(approvals := v.approvals, recs := v.recs)
    case DoAddMember(_, _, _, _, _, _) => v == w.(users := v.users, members := v.members)
    case DoUpdateMember(_, _, _, _) => v == w.(members := v.members)
    case DoRemoveMember(_, _) => v == w.(members := v.members)
    case DoCreateDraft(_, _, _, _, _) => v == w.(content := v.content)
    case DoUpdate(_, _, _, _) => v == w.(content := v.content)
    case DraftsRewritten(_, _, _, _, _) => v == w.(content := v.content)
    case AccountsSelected(_) => v == w.(accounts := v.accounts)
    case RecommendationsChanged(_) => v == w.(recs := v.recs)
    case StudyEnds(_) => v == w.(meta := v.meta)
  }

  lemma StepWritesOnly(w: World, a: Action)
    ensures WritesOnly(w, Next(w, a), a)
  {
    hide Next, WritesOnly;
    match a
    case DoDecide(user, aid, approve, env) => DecideWritesOnly(w, user, aid, approve, env);
    case DoRequestApproval(user, cid, env) => RequestWritesOnly(w, user, cid, env);
    case DoPublish(cid, env) => PublishWritesOnly(w, cid, env);
    case DoCreateTest(user, cid, input, env) => CreateWritesOnly(w, user, cid, input, env);
    case DoRequestLaunch(user, tid, env) => LaunchRequestWritesOnly(w, user, tid, env);
    case DoCancel(user, tid, env) => CancelWritesOnly(w, user, tid, env);
    case _ => OtherWritesOnly(w, a);
  }

  lemma OtherWritesOnly(w: World, a: Action)
    requires !a.DoDecide? && !a.DoRequestApproval? && !a.DoPublish? && !a.DoCreateTest? && !a.DoRequestLaunch? && !a.DoCancel?
    ensures WritesOnly(w, Next(w, a), a)
  {
    hide RequestSpec, PublishSpec, Attribute, RequestLaunchSpec, CancelSpec, DecideSpec, CreateTestSpec, PrivilegedMembers, IsMember;
  }

  /** The shape of every decision: one row of the approvals at most, and none of the other tables a decision leaves alone. */
  ghost predicate Decides(w: World, v: World, aid: nat, who: Id, now: nat, statuses: set<ApprovalStatus>) {
    && aid < |w.approvals|
    && v == w.(approvals := v.approvals, tests := v.tests, content := v.content, meta := v.meta, launchedFor := v.launchedFor)
    && (v.approvals == w.approvals
        || exists s :: s in statuses && v.approvals == w.approvals[aid := Decided(w.approvals[aid], s, who, now)])
  }

  lemma CampaignDecides(w: World, user: User, aid: nat, cid: Id, approve: bool, env: Env)
    requires aid < |w.approvals|
    ensures Decides(w, DecideCampaignSpec(w, user, aid, cid, approve, env).0, aid, user.id, env.now,
                    {if approve then APPROVED else REJECTED})
  {
  }

  lemma RejectDecides(w: World, user: User, aid: nat, test: Option<nat>, env: Env)
    requires aid < |w.approvals|
    ensures Decides(w, RejectSpec(w, user, aid, test, env).0, aid, user.id, env.now, {REJECTED})
  {
  }

  lemma LaunchDecides(w: World, user: User, aid: nat, tid: nat, env: Env)
    requires aid < |w.approvals|
    ensures Decides(w, ApproveLaunchSpec(w, user, aid, tid, env).0, aid, user.id, env.now, {CONSUMED, EXPIRED})
  {
    hide AddStudy, StopStudy, Launched;
  }

  lemma BudgetDecides(w: World, user: User, aid: nat, cid: Id, env: Env)
    requires aid < |w.approvals|
    ensures Decides(w, BudgetSpec(w, user, aid, cid, env).0, aid, user.id, env.now, {CONSUMED})
  {
    hide SetBudget, WriteBudget;
  }

  /** The statuses a decision may set, by kind and verdict. */
  function Outcomes(subject: Subject, approve: bool): set<ApprovalStatus> {
    if !approve then {REJECTED}
    else if subject.CampaignPublish? then {APPROVED}
    else if subject.TestLaunch? then {CONSUMED, EXPIRED}
    else {CONSUMED}
  }

  lemma DecisionDecides(w: World, user: User, aid: nat, approve: bool, env: Env)
    requires DecideGuard(w, user, aid, approve).Ok?
    ensures aid < |w.approvals|
    ensures Decides(w, DecideSpec(w, user, aid, approve, env).0, aid, user.id, env.now, Outcomes(w.approvals[aid].subject, approve))
  {
    hide OtherApprovers, DecideCampaignSpec, RejectSpec, ApproveLaunchSpec, BudgetSpec, Decides;
    match w.approvals[aid].subject
    case CampaignPublish(cid) => CampaignDecides(w, user, aid, cid, approve, env);
    case BudgetOf(cid) =>
      if approve { BudgetDecides(w, user, aid, cid, env); } else { RejectDecides(w, user, aid, None, env); }
    case TestLaunch(tid) =>
      if approve { LaunchDecides(w, user, aid, tid, env); } else { RejectDecides(w, user, aid, Some(tid), env); }
  }

  lemma DecideWritesOnly(w: World, user: User, aid: nat, approve: bool, env: Env)
    ensures var a := DoDecide(user, aid, approve, env); WritesOnly(w, Next(w, a), a)
  {
    hide OtherApprovers, DecideCampaignSpec, RejectSpec, ApproveLaunchSpec, BudgetSpec;
    if DecideGuard(w, user, aid, approve).Ok? { DecisionDecides(w, user, aid, approve, env); }
  }

  lemma RequestWritesOnly(w: World, user: User, cid: Id, env: Env)
    ensures var a := DoRequestApproval(user, cid, env); WritesOnly(w, Next(w, a), a)
  {
  }

  lemma PublishWritesOnly(w: World, cid: Id, env: Env)
    ensures var a := DoPublish(cid, env); WritesOnly(w, Next(w, a), a)
  {
    hide PublishGuard, RunPublish;
  }

  lemma CreateWritesOnly(w: World, user: User, cid: Id, input: TestInput, env: Env)
    ensures var a := DoCreateTest(user, cid, input, env); WritesOnly(w, Next(w, a), a)
  {
  }

  lemma LaunchRequestWritesOnly(w: World, user: User, tid: nat, env: Env)
    ensures var a := DoRequestLaunch(user, tid, env); WritesOnly(w, Next(w, a), a)
  {
    hide LaunchSpecOf;
  }

  lemma CancelWritesOnly(w: World, user: User, tid: nat, env: Env)
    ensures var a := DoCancel(user, tid, env); WritesOnly(w, Next(w, a), a)
  {
    hide PauseCells, StopStudy, CancelCommit;
    if tid < |w.tests| {
      CommitWritesOnly(w, tid, env);
      CommitWritesOnly(w.(meta := PauseCells(StopStudy(w.meta, w.tests[tid].metaTestId.GetOr(0)), w.tests[tid], env)), tid, env);
    }
  }

  lemma CommitWritesOnly(w: World, tid: nat, env: Env)
    requires tid < |w.tests|
    ensures var v := CancelCommit(w, tid, env).0; v == w.(approvals := v.approvals, tests := v.tests)
  {
  }

  // ---------- What a step may do to the approvals ----------

  datatype Change =
    | Nothing
    | Superseded(subject: Subject, payload: Payload, who: Id, now: nat)
    | Added(subject: Subject, payload: Payload, who: Id, now: nat)
    | DecidedOne(aid: nat, status: ApprovalStatus, who: Id, now: nat)
    | ConsumedOne(aid: nat)
    | Withdrawn(subject: Subject)

  function Changed(s: seq<Approval>, c: Change): seq<Approval> {
    match c
    case Nothing => s
    case Superseded(subject, payload, who, now) => ExpirePending(s, subject) + [NewApproval(subject, payload, who, now)]
    case Added(subject, payload, who, now) => s + [NewApproval(subject, payload, who, now)]
    case DecidedOne(aid, status, who, now) => if aid < |s| then s[aid := Decided(s[aid], status, who, now)] else s
    case ConsumedOne(aid) => if aid < |s| then s[aid := s[aid].(status := CONSUMED)] else s
    case Withdrawn(subject) => ExpirePending(s, subject)
  }

  /** Which changes a step may make: only decisions touch a pending approval, only publishing an approved one. */
  ghost predicate Allowed(w: World, a: Action, c: Change) {
    match c
    case Nothing => true
    case Superseded(subject, payload, who, _) =>
      (a.DoRequestApproval? && subject == CampaignPublish(a.cid) && payload.PublishPayload? && who == a.user.id)
      || (a.DoRequestLaunch? && subject == TestLaunch(a.tid) && a.tid < |w.tests| && payload.LaunchPayload?
          && payload.spec.abTestId == a.tid && who == a.user.id)
    case Added(subject, payload, who, _) => a.DoApply? && IsBudgetRequest(w, subject, payload) && who == a.user.id
    case DecidedOne(aid, status, who, _) =>
      && a.DoDecide? && aid == a.aid && who == a.user.id && DecideGuard(w, a.user, aid, a.approve).Ok? && aid < |w.approvals|
      && (status == APPROVED || status == CONSUMED ==> a.approve)
      && (status == APPROVED ==> w.approvals[aid].subject.CampaignPublish?)
      && (status == CONSUMED ==> !w.approvals[aid].subject.CampaignPublish?)
      && status in {APPROVED, CONSUMED, REJECTED, EXPIRED}
    case ConsumedOne(aid) =>
      a.DoPublish? && PublishGuard(w, a.cid, a.env) == Ok(aid) && aid < |w.approvals|
    case Withdrawn(subject) => a.DoCancel? && subject == TestLaunch(a.tid)
  }

  ghost predicate IsBudgetRequest(w: World, subject: Subject, payload: Payload) {
    && subject.BudgetOf? && subject.campaign in w.content.campaigns
    && w.content.campaigns[subject.campaign].metaCampaignId.Some? && w.content.campaigns[subject.campaign].budgetAmount.Some?
    && (payload == ChangeOf(ScaleBudget, w.content.campaigns[subject.campaign])
        || payload == ChangeOf(ReduceBudget, w.content.campaigns[subject.campaign]))
  }

  lemma StepChanges(w: World, a: Action) returns (c: Change)
    ensures Allowed(w, a, c) && Next(w, a).approvals == Changed(w.approvals, c)
  {
    hide Next;
    match a
    case DoRequestApproval(user, cid, env) => c := RequestChanges(w, user, cid, env);
    case DoDecide(user, aid, approve, env) => c := DecideChanges(w, user, aid, approve, env);
    case DoPublish(cid, env) => c := PublishChanges(w, cid, env);
    case DoRequestLaunch(user, tid, env) => c := LaunchChanges(w, user, tid, env);
    case DoCancel(user, tid, env) => c := CancelChanges(w, user, tid, env);
    case DoApply(user, rid, env) => c := ApplyChanges(w, user, rid, env);
    case _ =>
      StepWritesOnly(w, a);
      c := Nothing;
  }

  lemma RequestChanges(w: World, user: User, cid: Id, env: Env) returns (c: Change)
    ensures var a := DoRequestApproval(user, cid, env); Allowed(w, a, c) && Next(w, a).approvals == Changed(w.approvals, c)
  {
    var a := DoRequestApproval(user, cid, env);
    if Next(w, a).approvals == w.approvals { return Nothing; }
    c := Superseded(CampaignPublish(cid), PublishPayload(BundleBuilder.CurrentPlan(w.content, w.accounts, cid)), user.id, env.now);
  }

  lemma PublishChanges(w: World, cid: Id, env: Env) returns (c: Change)
    ensures var a := DoPublish(cid, env); Allowed(w, a, c) && Next(w, a).approvals == Changed(w.approvals, c)
  {
    var guard := PublishGuard(w, cid, env);
    c := if guard.Ok? && env.commitOk then ConsumedOne(guard.value) else Nothing;
  }

  lemma LaunchChanges(w: World, user: User, tid: nat, env: Env) returns (c: Change)
    ensures var a := DoRequestLaunch(user, tid, env); Allowed(w, a, c) && Next(w, a).approvals == Changed(w.approvals, c)
  {
    c := Nothing;
    if GetTest(w, user, tid).Ok? && LaunchSpecOf(w, tid).Ok? && env.commitOk {
      c := Superseded(TestLaunch(tid), LaunchPayload(LaunchSpecOf(w, tid).value), user.id, env.now);
    }
  }

  lemma CancelChanges(w: World, user: User, tid: nat, env: Env) returns (c: Change)
    ensures var a := DoCancel(user, tid, env); Allowed(w, a, c) && Next(w, a).approvals == Changed(w.approvals, c)
  {
    hide PauseCells, StopStudy;
    c := if CancelSpec(w, user, tid, env).1.Ok? then Withdrawn(TestLaunch(tid)) else Nothing;
  }

  lemma ApplyChanges(w: World, user: User, rid: Id, env: Env) returns (c: Change)
    ensures var a := DoApply(user, rid, env); Allowed(w, a, c) && Next(w, a).approvals == Changed(w.approvals, c)
  {
    hide Stepped;
    var a := DoApply(user, rid, env);
    if Next(w, a).approvals == w.approvals { return Nothing; }
    var rec := w.recs[rid];
    c := Added(BudgetOf(rec.campaignId.value), ChangeOf(rec.kind, w.content.campaigns[rec.campaignId.value]), user.id, env.now);
  }

  lemma DecideChanges(w: World, user: User, aid: nat, approve: bool, env: Env) returns (c: Change)
    ensures var a := DoDecide(user, aid, approve, env); Allowed(w, a, c) && Next(w, a).approvals == Changed(w.approvals, c)
  {
    hide OtherApprovers, DecideCampaignSpec, RejectSpec, ApproveLaunchSpec, BudgetSpec;
    c := Nothing;
    if DecideGuard(w, user, aid, approve).Ok? {
      DecisionDecides(w, user, aid, approve, env);
      var v := DecideSpec(w, user, aid, approve, env).0;
      if v.approvals != w.approvals {
        var s :| s in Outcomes(w.approvals[aid].subject, approve) && v.approvals == w.approvals[aid := Decided(w.approvals[aid], s, user.id, env.now)];
        c := DecidedOne(aid, s, user.id, env.now);
      }
    }
  }
}
