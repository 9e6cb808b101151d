/**
 * What ran is what was approved: over any run that mixes edits, approvals and publishes, every
 * plan executed on Meta is the plan stored in an approval of its own.
 */
module PublishHistory {
  import opened Core
  import opened PublishPlan
  import opened MetaStore
  import opened Rows
  import opened PlanRun
  import opened TreeCopy
  import opened PublishSafety
  import opened World
  import opened BundleBuilder
  import opened PublishService
  import opened ApprovalsService
  import opened AbTestsService
  import opened Workflow
  import opened ApprovalLifecycle

  /** The publish passes its checks and consumes the approval `aid`. */
  ghost predicate Consumes(w: World, a: Action, aid: nat) {
    a.DoPublish? && PublishGuard(w, a.cid, a.env) == Ok(aid) && a.env.commitOk
  }

  /** It then runs a plan, unless the connector context cannot be built. */
  ghost predicate RunsPlan(w: World, a: Action, aid: nat) { Consumes(w, a, aid) && a.env.contextOk }

  // ---------- One publish ----------

  function JobOf(w: World, cid: Id): Job
    requires cid in w.content.campaigns && AccountOf(w, w.content.campaigns[cid].clientId).Some?
  {
    Job(cid, AccountOf(w, w.content.campaigns[cid].clientId).value.id)
  }

  lemma GuardGivesApproved(w: World, cid: Id, env: Env, aid: nat)
    requires PublishGuard(w, cid, env) == Ok(aid)
    ensures aid < |w.approvals| && IsApprovedPublish(w.approvals[aid], cid) && env.now <= w.approvals[aid].expiresAt
    ensures cid in w.content.campaigns && AccountOf(w, w.content.campaigns[cid].clientId).Some?
    ensures w.approvals[aid].payloadHash == HashOf(PublishPayload(CurrentPlan(w.content, w.accounts, cid)))
  {
  }

  /**
   * A publish that touches Meta runs the steps of the approved plan, all of them or a prefix, from
   * the store as it was; it was APPROVED, is CONSUMED, and no other approval changes.
   */
  lemma RunsApprovedPlan(w: World, a: Action, aid: nat) returns (j: nat)
    requires Sound(w.approvals) && RunsPlan(w, a, aid)
    ensures aid < |w.approvals| && IsApprovedPublish(w.approvals[aid], a.cid) && w.approvals[aid].payload.PublishPayload?
    ensures a.cid in w.content.campaigns && AccountOf(w, w.content.campaigns[a.cid].clientId).Some?
    ensures var plan := w.approvals[aid].payload.plan;
      && j <= |plan|
      && Next(w, a).meta == RunSteps(Start(w.meta, Consume(w, a.cid, aid).content), JobOf(w, a.cid), plan[..j]).meta
      && (PublishSpec(w, a.cid, a.env).1.Ok? ==> j == |plan|)
    ensures Next(w, a).approvals == w.approvals[aid := w.approvals[aid].(status := CONSUMED)]
  {
    hide RunSteps, Attempt, BuildBundle, CurrentPlan, PlanOf, LatestApproved, Start;
    GuardGivesApproved(w, a.cid, a.env, aid);
    assert Typed(w.approvals[aid]);
    var consumed := Consume(w, a.cid, aid);
    var plan := CurrentPlan(w.content, w.accounts, a.cid);
    j := AttemptIsPrefix(Start(consumed.meta, consumed.content), JobOf(w, a.cid), plan, a.env.fault);
    if j == |plan| { assert plan[..j] == plan; }
  }

  /** When the publish does not run a plan, Meta is untouched. */
  lemma NoPlanNoEffect(w: World, a: Action)
    requires a.DoPublish? && forall aid :: !RunsPlan(w, a, aid)
    ensures Next(w, a).meta == w.meta
  {
    hide PublishSpec, PublishGuard;
    var guard := PublishGuard(w, a.cid, a.env);
    if guard.Ok? { assert !RunsPlan(w, a, guard.value); }
    RefusedKeepsMeta(w, a.cid, a.env);
  }

  // ---------- Publishing is safe in every world ----------

  /** Status changes are not drift: the plan depends on the other columns alone. */
  lemma StatusIsNotDrift(c: Content, accounts: map<Id, Account>, cid: Id, status: CampaignStatus)
    requires cid in c.campaigns
    ensures var d := WriteStatus(c, cid, status);
      && cid in d.campaigns && d.campaigns[cid] == c.campaigns[cid].(status := status)
      && BuildBundle(d, accounts, cid) == BuildBundle(c, accounts, cid) && (KeysOk(c) ==> KeysOk(d))
  {
    hide AdSetInfosOf;
    SameAdSets(c, WriteStatus(c, cid, status), cid);
  }

  /** Ad set information is read from the ad set, ad and creative tables alone. */
  lemma SameAdSets(c: Content, d: Content, cid: Id)
    requires d == c.(campaigns := d.campaigns)
    ensures AdSetInfosOf(c, cid) == AdSetInfosOf(d, cid)
  {
    SameScan(c, d, c.adSetScan, cid);
    AdSetsOfHold(c, c.adSetScan, cid);
    var ids := AdSetsOf(c, c.adSetScan, cid);
    forall i | 0 <= i < |ids| ensures ids[i] in c.adSets && AdSetInfoOf(c, ids[i]) == AdSetInfoOf(d, ids[i]) {
      assert ids[i] in ids;
      SameAds(c, d, ids[i]);
    }
  }

  lemma {:induction false} SameScan(c: Content, d: Content, scan: seq<Id>, cid: Id)
    requires d == c.(campaigns := d.campaigns)
    ensures AdSetsOf(c, scan, cid) == AdSetsOf(d, scan, cid)
    decreases |scan|
  {
    if scan != [] { SameScan(c, d, scan[1..], cid); }
  }

  lemma {:induction false} SameAdScan(c: Content, d: Content, scan: seq<Id>, sid: Id)
    requires d == c.(campaigns := d.campaigns)
    ensures AdsOf(c, scan, sid) == AdsOf(d, scan, sid)
    decreases |scan|
  {
    if scan != [] { SameAdScan(c, d, scan[1..], sid); }
  }

  lemma SameAds(c: Content, d: Content, sid: Id)
    requires d == c.(campaigns := d.campaigns)
    ensures AdInfosOf(c, sid) == AdInfosOf(d, sid)
  {
    SameAdScan(c, d, c.adScan, sid);
    AdsOfHold(c, c.adScan, sid);
    var ids := AdsOf(c, c.adScan, sid);
    forall i | 0 <= i < |ids| ensures ids[i] in c.ads && AdInfoOf(c, ids[i]) == AdInfoOf(d, ids[i]) {
      assert ids[i] in ids;
    }
  }

  /**
   * A publish request on consistent tables, whatever fails: older entities are untouched, no ad or
   * ad set is ACTIVE under a paused parent, and success leaves exactly one ACTIVE copy of the tree.
   */
  lemma PublishIsSafe(w: World, cid: Id, env: Env)
    requires KeysOk(w.content) && Numbered(w.meta) && cid in w.content.campaigns
    ensures var (w', r) := PublishSpec(w, cid, env);
      var tree := Compile(BuildBundle(w.content, w.accounts, cid));
      && Extends(w.meta, w'.meta) && AncestorsActive(w.meta, w'.meta)
      && (r.Ok? ==> w'.meta == CopyTree(w.meta, tree, WriteStatus(w.content, cid, Publishing), Active))
  {
    hide BuildBundle, CopyTree, Compile, KeysOk, Attempt, LatestApproved, RunSteps;
    var guard := PublishGuard(w, cid, env);
    if guard.Ok? && env.commitOk && env.contextOk {
      GuardGivesApproved(w, cid, env, guard.value);
      StatusIsNotDrift(w.content, w.accounts, cid, Publishing);
      var consumed := Consume(w, cid, guard.value);
      var account := AccountOf(w, w.content.campaigns[cid].clientId).value.id;
      var tree := Compile(BuildBundle(w.content, w.accounts, cid));
      BundleIsPublishable(consumed.content, w.accounts, cid, w.meta, account);
      FaultSafety(w.meta, consumed.content, Job(cid, account), tree, env.fault);
      PublishCopiesTree(w.meta, consumed.content, Job(cid, account), tree);
      var j := AttemptIsPrefix(Start(w.meta, consumed.content), Job(cid, account), Flatten(tree), env.fault);
      RunPublishIs(w, cid, guard.value, tree, env);
    }
  }

  lemma RunPublishIs(w: World, cid: Id, aid: nat, tree: Tree, env: Env)
    requires cid in w.content.campaigns && AccountOf(w, w.content.campaigns[cid].clientId).Some? && aid < |w.approvals|
    requires tree == Compile(BuildBundle(w.content, w.accounts, cid))
    ensures var consumed := Consume(w, cid, aid);
      && cid in consumed.content.campaigns && AccountOf(consumed, consumed.content.campaigns[cid].clientId).Some?
      && RunPublish(consumed, cid, CurrentPlan(w.content, w.accounts, cid), env)
         == Attempt(Start(w.meta, consumed.content), JobOf(w, cid), Flatten(tree), env.fault)
  {
    hide BuildBundle, Compile, Attempt, Flatten;
  }

  /** With the checks behind it a publish succeeds exactly when no fault cuts its plan short and its last write goes through. */
  lemma PublishSucceedsIff(w: World, cid: Id, env: Env, aid: nat)
    requires KeysOk(w.content) && Numbered(w.meta) && PublishGuard(w, cid, env) == Ok(aid) && env.commitOk
    ensures cid in w.content.campaigns
    ensures PublishSpec(w, cid, env).1.Ok? <==>
      env.contextOk && !Cuts(Compile(BuildBundle(w.content, w.accounts, cid)), env.fault) && env.finishOk
  {
    hide BuildBundle, Compile, KeysOk, Attempt, LatestApproved, Cuts;
    GuardGivesApproved(w, cid, env, aid);
    StatusIsNotDrift(w.content, w.accounts, cid, Publishing);
    var consumed := Consume(w, cid, aid);
    var tree := Compile(BuildBundle(w.content, w.accounts, cid));
    BundleIsPublishable(consumed.content, w.accounts, cid, w.meta, JobOf(w, cid).accountId);
    CutsIff(w.meta, consumed.content, JobOf(w, cid), tree, env.fault);
    RunPublishIs(w, cid, aid, tree, env);
  }

  /**
   * The header's second claim, that a failure marks the campaign ERROR: after a consumed publish the
   * row is PUBLISHED on success, and ERROR exactly when the failure came inside the try block and the
   * ERROR write went through. Otherwise it is left PUBLISHING.
   */
  lemma PublishStatusIs(w: World, cid: Id, env: Env, aid: nat)
    requires PublishGuard(w, cid, env) == Ok(aid) && env.commitOk
    ensures var (v, r) := PublishSpec(w, cid, env);
      && cid in v.content.campaigns
      && (v.content.campaigns[cid].status == Published <==> r.Ok?)
      && (v.content.campaigns[cid].status == Failed <==> env.contextOk && r.Err? && env.errorRowOk)
      && (v.content.campaigns[cid].status == Publishing <==> !env.contextOk || (r.Err? && !env.errorRowOk))
  {
    hide CurrentPlan, LatestApproved, Attempt;
    GuardGivesApproved(w, cid, env, aid);
    var consumed := Consume(w, cid, aid);
    AttemptKeepsRows(Start(w.meta, consumed.content), JobOf(w, cid), CurrentPlan(w.content, w.accounts, cid), env.fault);
  }

  /** A publish request leaves its tree half-activated exactly in the cases of HalfActivatedIff, once its checks are passed. */
  lemma PublishHalfActivatesIff(w: World, cid: Id, env: Env)
    requires KeysOk(w.content) && Numbered(w.meta) && cid in w.content.campaigns
    ensures var tree := Compile(BuildBundle(w.content, w.accounts, cid));
      HalfActivated(w.meta, PublishSpec(w, cid, env).0.meta) <==>
        && PublishGuard(w, cid, env).Ok? && env.commitOk && env.contextOk
        && env.fault.CallFails?
        && CreateCount(tree) < (if env.fault.reachedMeta then env.fault.at + 1 else env.fault.at) < |Flatten(tree)|
  {
    hide BuildBundle, Compile, KeysOk, Attempt, LatestApproved, Flatten;
    var guard := PublishGuard(w, cid, env);
    if guard.Ok? && env.commitOk && env.contextOk {
      GuardGivesApproved(w, cid, env, guard.value);
      StatusIsNotDrift(w.content, w.accounts, cid, Publishing);
      var consumed := Consume(w, cid, guard.value);
      var tree := Compile(BuildBundle(w.content, w.accounts, cid));
      BundleIsPublishable(consumed.content, w.accounts, cid, w.meta, JobOf(w, cid).accountId);
      HalfActivatedIff(w.meta, consumed.content, JobOf(w, cid), tree, env.fault);
      RunPublishIs(w, cid, guard.value, tree, env);
    } else {
      RefusedKeepsMeta(w, cid, env);
    }
  }

  lemma RefusedKeepsMeta(w: World, cid: Id, env: Env)
    requires !(PublishGuard(w, cid, env).Ok? && env.commitOk && env.contextOk)
    ensures PublishSpec(w, cid, env).0.meta == w.meta
  {
    hide RunPublish, PublishGuard;
  }

  // ---------- Over a run ----------

  /** Every publish in a run was preceded by the decision that granted the approval it consumes. */
  lemma PublishFollowsGrant(w: World, acts: seq<Action>, k: nat, aid: nat) returns (d: nat)
    requires k < |acts| && Consumes(After(w, acts[..k]), acts[k], aid)
    requires aid < |w.approvals| ==> !IsGranted(w.approvals[aid].status)
    ensures d < k && acts[d].DoDecide? && acts[d].aid == aid && acts[d].approve
    ensures aid < |After(w, acts[..k]).approvals|
    ensures var v, end := After(w, acts[..d]), After(w, acts[..k]).approvals[aid];
      && end.decidedBy == Some(acts[d].user.id) && end.subject == CampaignPublish(acts[k].cid)
      && (acts[d].user.id == end.requestedBy ==> OtherApprovers(v.members, end.requestedBy) == {})
  {
    hide Next, OtherApprovers;
    GuardGivesApproved(After(w, acts[..k]), acts[k].cid, acts[k].env, aid);
    d := GrantedBySomeoneElse(w, acts[..k], aid);
    assert acts[..k][..d] == acts[..d];
  }

  /**
   * What ran is what was approved: when a publish at step k of any run reaches Meta, the steps it runs
   * there are a prefix of the plan that stood in the approval when an earlier decision d approved it.
   */
  lemma WhatRanWasApproved(w: World, acts: seq<Action>, k: nat, aid: nat) returns (d: nat, j: nat)
    requires Sound(w.approvals) && (aid < |w.approvals| ==> !IsGranted(w.approvals[aid].status))
    requires k < |acts| && RunsPlan(After(w, acts[..k]), acts[k], aid)
    ensures d < k && acts[d].DoDecide? && acts[d].aid == aid && acts[d].approve
    ensures var early, late := After(w, acts[..d]), After(w, acts[..k]);
      && aid < |early.approvals| && early.approvals[aid].status == PENDING
      && early.approvals[aid].subject == CampaignPublish(acts[k].cid) && early.approvals[aid].payload.PublishPayload?
      && acts[k].cid in late.content.campaigns && AccountOf(late, late.content.campaigns[acts[k].cid].clientId).Some?
      && aid < |late.approvals|
      && j <= |early.approvals[aid].payload.plan|
      && After(w, acts[..k + 1]).meta
         == RunSteps(Start(late.meta, Consume(late, acts[k].cid, aid).content), JobOf(late, acts[k].cid),
                     early.approvals[aid].payload.plan[..j]).meta
  {
    hide Next, RunSteps, Start, Sound, OtherApprovers, PublishGuard, PublishSpec;
    var now := After(w, acts[..k]);
    AtMostOnePending(w, acts[..k]);
    j := RunsApprovedPlan(now, acts[k], aid);
    d := GrantedBySomeoneElse(w, acts[..k], aid);
    assert acts[..k][..d] == acts[..d];
    ApprovalsAreMonotone(w, acts[..k], d);
    assert Evolves(After(w, acts[..d]).approvals[aid], now.approvals[aid]);
    AfterNext(w, acts, k);
  }

  // ---------- The only way to a live entity ----------

  predicate ActiveIn(w: World, id: MetaId) { id in w.meta.entities && w.meta.entities[id].status == Active }

  /** A step that activates an entity is a publish that runs a plan. */
  lemma ActivationIsPublish(w: World, a: Action, id: MetaId) returns (aid: nat)
    requires ActiveIn(Next(w, a), id) && !ActiveIn(w, id)
    ensures RunsPlan(w, a, aid)
  {
    hide RequestSpec, PublishSpec, DecideSpec, CancelSpec, PublishGuard, PauseSpec;
    aid := 0;
    match a
    case DoPublish(cid, env) =>
      if PublishGuard(w, cid, env).Ok? && env.commitOk && env.contextOk {
        aid := PublishGuard(w, cid, env).value;
      } else {
        RefusedKeepsMeta(w, cid, env);
      }
    case DoDecide(user, n, approve, env) => DecisionActivatesNothing(w, user, n, approve, env, id);
    case DoCancel(user, tid, env) => CancelActivatesNothing(w, user, tid, env, id);
    case DoPause(cid, env) => PauseActivatesNothing(w, cid, env, id);
    case StudyEnds(study) =>
    case _ => StepWritesOnly(w, a);
  }

  lemma PauseActivatesNothing(w: World, cid: Id, env: Env, id: MetaId)
    requires !ActiveIn(w, id)
    ensures !ActiveIn(PauseSpec(w, cid, env).0, id)
  {
  }

  lemma CancelActivatesNothing(w: World, user: User, tid: nat, env: Env, id: MetaId)
    requires !ActiveIn(w, id)
    ensures !ActiveIn(CancelSpec(w, user, tid, env).0, id)
  {
    hide ExpirePending;
  }

  lemma DecisionActivatesNothing(w: World, user: User, aid: nat, approve: bool, env: Env, id: MetaId)
    requires !ActiveIn(w, id)
    ensures !ActiveIn(DecideSpec(w, user, aid, approve, env).0, id)
  {
    hide OtherApprovers, ApproveLaunchSpec, BudgetSpec, Decided;
    if DecideGuard(w, user, aid, approve).Ok? && approve {
      match w.approvals[aid].subject
      case TestLaunch(tid) => LaunchActivatesNothing(w, user, aid, tid, env, id);
      case BudgetOf(cid) => BudgetActivatesNothing(w, user, aid, cid, env, id);
      case _ =>
    }
  }

  lemma LaunchActivatesNothing(w: World, user: User, aid: nat, tid: nat, env: Env, id: MetaId)
    requires aid < |w.approvals| && !ActiveIn(w, id)
    ensures !ActiveIn(ApproveLaunchSpec(w, user, aid, tid, env).0, id)
  {
    hide Launched, Decided;
  }

  lemma BudgetActivatesNothing(w: World, user: User, aid: nat, cid: Id, env: Env, id: MetaId)
    requires aid < |w.approvals| && !ActiveIn(w, id)
    ensures !ActiveIn(BudgetSpec(w, user, aid, cid, env).0, id)
  {
    hide WriteBudget, Decided;
  }

  /**
   * Publishing is the only path to live entities: over any run, whatever is ACTIVE on Meta at the end
   * and was not at the start became so in a publish that ran the plan of the approval it consumed.
   */
  lemma {:induction false} OnlyPublishGoesLive(w: World, acts: seq<Action>, id: MetaId) returns (k: nat, aid: nat)
    requires ActiveIn(After(w, acts), id) && !ActiveIn(w, id)
    ensures k < |acts| && RunsPlan(After(w, acts[..k]), acts[k], aid)
    ensures !ActiveIn(After(w, acts[..k]), id) && ActiveIn(After(w, acts[..k + 1]), id)
    decreases |acts|
  {
    hide Next, RunsPlan;
    assert acts != [];
    var n := |acts| - 1;
    var front := acts[..n];
    if ActiveIn(After(w, front), id) {
      k, aid := OnlyPublishGoesLive(w, front, id);
      assert front[..k] == acts[..k] && front[..k + 1] == acts[..k + 1];
    } else {
      k := n;
      aid := ActivationIsPublish(After(w, front), acts[n], id);
      assert acts[..n + 1] == acts;
    }
  }

  /** No two publishes of a run consume the same approval. */
  lemma EveryRunHasItsOwnApproval(w: World, acts: seq<Action>, k1: nat, aid1: nat, k2: nat, aid2: nat)
    requires k1 < k2 < |acts|
    requires Consumes(After(w, acts[..k1]), acts[k1], aid1) && Consumes(After(w, acts[..k2]), acts[k2], aid2)
    ensures aid1 != aid2
  {
    hide Next, LatestApproved, CurrentPlan;
    var v1, v2 := After(w, acts[..k1]), After(w, acts[..k2]);
    AfterNext(w, acts, k1);
    GuardGivesApproved(v1, acts[k1].cid, acts[k1].env, aid1);
    GuardGivesApproved(v2, acts[k2].cid, acts[k2].env, aid2);
    ConsumptionIsRecorded(v1, acts[k1], aid1);
    ApprovalsAreMonotone(w, acts[..k2], k1 + 1);
    assert acts[..k2][..k1 + 1] == acts[..k1 + 1];
    assert Evolves(Next(v1, acts[k1]).approvals[aid1], v2.approvals[aid1]);
  }

  lemma ConsumptionIsRecorded(w: World, a: Action, aid: nat)
    requires Consumes(w, a, aid)
    ensures aid < |w.approvals| && Next(w, a).approvals == w.approvals[aid := w.approvals[aid].(status := CONSUMED)]
  {
    hide RunPublish, CurrentPlan, LatestApproved;
    GuardGivesApproved(w, a.cid, a.env, aid);
  }

  // ---------- Counting ----------

  function Bit(b: bool): nat { if b then 1 else 0 }

  /** Approvals of the campaign that stand APPROVED. */
  function Standing(s: seq<Approval>, cid: Id): nat {
    if s == [] then 0 else Standing(s[..|s| - 1], cid) + Bit(IsApprovedPublish(s[|s| - 1], cid))
  }

  /** The step is a decision that moves a publish approval of the campaign to APPROVED. */
  ghost predicate Grants(w: World, a: Action, cid: Id) {
    && a.DoDecide? && a.approve && a.aid < |w.approvals| && w.approvals[a.aid].status == PENDING
    && a.aid < |Next(w, a).approvals| && IsApprovedPublish(Next(w, a).approvals[a.aid], cid)
  }

  ghost predicate ConsumesFor(w: World, a: Action, cid: Id) {
    a.DoPublish? && a.cid == cid && PublishGuard(w, cid, a.env).Ok? && a.env.commitOk
  }

  ghost function GrantCount(w: World, acts: seq<Action>, cid: Id): nat
    decreases |acts|
  {
    if acts == [] then 0
    else
      var front := acts[..|acts| - 1];
      GrantCount(w, front, cid) + Bit(Grants(After(w, front), acts[|acts| - 1], cid))
  }

  ghost function PublishCount(w: World, acts: seq<Action>, cid: Id): nat
    decreases |acts|
  {
    if acts == [] then 0
    else
      var front := acts[..|acts| - 1];
      PublishCount(w, front, cid) + Bit(ConsumesFor(After(w, front), acts[|acts| - 1], cid))
  }

  lemma {:induction false} StandingPointwise(s: seq<Approval>, t: seq<Approval>, cid: Id, k: nat)
    requires |s| == |t|
    requires forall i :: 0 <= i < |s| && i != k ==> IsApprovedPublish(s[i], cid) == IsApprovedPublish(t[i], cid)
    ensures k >= |s| ==> Standing(t, cid) == Standing(s, cid)
    ensures k < |s| ==>
      Standing(t, cid) + Bit(IsApprovedPublish(s[k], cid)) == Standing(s, cid) + Bit(IsApprovedPublish(t[k], cid))
    decreases |s|
  {
    if s != [] { StandingPointwise(s[..|s| - 1], t[..|s| - 1], cid, k); }
  }

  lemma StandingAppend(s: seq<Approval>, a: Approval, cid: Id)
    ensures Standing(s + [a], cid) == Standing(s, cid) + Bit(IsApprovedPublish(a, cid))
  {
    assert (s + [a])[..|s|] == s;
  }

  /** What one change does to the standing approvals of a campaign. */
  lemma ChangeCounts(s: seq<Approval>, c: Change, cid: Id)
    requires c.DecidedOne? || c.ConsumedOne? ==> c.aid < |s|
    ensures c.DecidedOne? ==>
      Standing(Changed(s, c), cid) + Bit(IsApprovedPublish(s[c.aid], cid))
      == Standing(s, cid) + Bit(IsApprovedPublish(Changed(s, c)[c.aid], cid))
    ensures c.ConsumedOne? ==> Standing(Changed(s, c), cid) + Bit(IsApprovedPublish(s[c.aid], cid)) == Standing(s, cid)
    ensures !c.DecidedOne? && !c.ConsumedOne? ==> Standing(Changed(s, c), cid) == Standing(s, cid)
  {
    hide Standing;
    match c
    case Nothing =>
    case Superseded(subject, payload, who, now) =>
      StandingPointwise(s, ExpirePending(s, subject), cid, |s|);
      StandingAppend(ExpirePending(s, subject), NewApproval(subject, payload, who, now), cid);
    case Added(subject, payload, who, now) => StandingAppend(s, NewApproval(subject, payload, who, now), cid);
    case DecidedOne(aid, _, _, _) => StandingPointwise(s, Changed(s, c), cid, aid);
    case ConsumedOne(aid) => StandingPointwise(s, Changed(s, c), cid, aid);
    case Withdrawn(subject) => StandingPointwise(s, ExpirePending(s, subject), cid, |s|);
  }

  lemma StepCounts(w: World, a: Action, cid: Id)
    requires Sound(w.approvals)
    ensures Standing(Next(w, a).approvals, cid) + Bit(ConsumesFor(w, a, cid)) == Standing(w.approvals, cid) + Bit(Grants(w, a, cid))
  {
    hide Next, Standing, PublishGuard, IsBudgetRequest, OtherApprovers;
    var c := StepChanges(w, a);
    var s := w.approvals;
    ChangeCounts(s, c, cid);
    if a.DoPublish? { PublishCounts(w, a, cid); }
    if a.DoDecide? && a.aid < |s| && c.DecidedOne? {
      assert s[a.aid].status == PENDING;
    }
  }

  /** A publish consumes one standing approval when it passes its checks, and none otherwise. */
  lemma PublishCounts(w: World, a: Action, cid: Id)
    requires a.DoPublish?
    ensures Standing(Next(w, a).approvals, cid) + Bit(ConsumesFor(w, a, cid)) == Standing(w.approvals, cid)
  {
    hide Standing, CurrentPlan, LatestApproved, RunPublish;
    var guard := PublishGuard(w, a.cid, a.env);
    if guard.Ok? {
      GuardGivesApproved(w, a.cid, a.env, guard.value);
      ChangeCounts(w.approvals, ConsumedOne(guard.value), cid);
    }
  }

  /**
   * Conservation: of the approvals granted for a campaign, each is either consumed by one publish
   * or still standing. So plan runs never outnumber approving decisions.
   */
  lemma {:induction false} GrantsAreConserved(w: World, acts: seq<Action>, cid: Id)
    requires Sound(w.approvals)
    ensures PublishCount(w, acts, cid) + Standing(After(w, acts).approvals, cid)
         == GrantCount(w, acts, cid) + Standing(w.approvals, cid)
    decreases |acts|
  {
    hide Next, Sound, Grants, ConsumesFor, Standing;
    if acts != [] {
      var front := acts[..|acts| - 1];
      GrantsAreConserved(w, front, cid);
      AtMostOnePending(w, front);
      StepCounts(After(w, front), acts[|acts| - 1], cid);
    }
  }
}
