/** Budget changes over any run: bounded steps, guarded against drift, and safe to retry. */
module BudgetChanges {
  import opened Core
  import opened MetaStore
  import opened Rows
  import opened PlanRun
  import opened PublishSafety
  import opened World
  import opened BundleBuilder
  import opened PublishService
  import opened ApprovalsService
  import opened AbTestsService
  import opened CampaignsService
  import opened RecommendationsService
  import opened Workflow
  import opened ApprovalLifecycle

  function BudgetIn(c: Content, cid: Id): Option<int> {
    if cid in c.campaigns then c.campaigns[cid].budgetAmount else None
  }

  function PayloadOf(w: World, aid: nat): Payload
    requires aid < |w.approvals|
  {
    w.approvals[aid].payload
  }

  // ---------- One change ----------

  /** The step carries out an approved budget change of the campaign. */
  ghost predicate ChangesBudget(w: World, a: Action, cid: Id) {
    && a.DoDecide? && a.approve && a.aid < |w.approvals| && w.approvals[a.aid].subject == BudgetOf(cid)
    && DecideSpec(w, a.user, a.aid, true, a.env).1.Ok?
  }

  /** The budget that Meta has for a campaign, of the given kind. */
  function BudgetOnMeta(m: Meta, id: MetaId, kind: BudgetType): Option<int> {
    if id in m.entities && m.entities[id].detail.OfCampaign? then
      if kind == Lifetime then m.entities[id].detail.lifetimeBudget else m.entities[id].detail.dailyBudget
    else None
  }

  ghost predicate OnMeta(m: Meta, id: MetaId) {
    id.kind == CampaignType && id in m.entities && m.entities[id].detail.OfCampaign?
  }

  /** A consumed change leaves the campaign's own budget and Meta's at exactly the approved value. */
  lemma ConsumedChangeTakesEffect(w: World, a: Action, cid: Id)
    requires ChangesBudget(w, a, cid)
    ensures PayloadOf(w, a.aid).BudgetPayload? && cid in w.content.campaigns && w.content.campaigns[cid].metaCampaignId.Some?
    ensures var p, id, v := PayloadOf(w, a.aid), w.content.campaigns[cid].metaCampaignId.value, Next(w, a);
      && BudgetIn(w.content, cid) == Some(p.currentBudget) && BudgetIn(v.content, cid) == Some(p.newBudget)
      && v.approvals == w.approvals[a.aid := Decided(w.approvals[a.aid], CONSUMED, a.user.id, a.env.now)]
      && (OnMeta(w.meta, id) ==> BudgetOnMeta(v.meta, id, p.budgetType) == Some(p.newBudget))
      && (forall e :: e in w.meta.entities && e != id ==> e in v.meta.entities && v.meta.entities[e] == w.meta.entities[e])
  {
    hide OtherApprovers;
  }

  lemma SetBudgetTwice(m: Meta, id: MetaId, kind: BudgetType, amount: int)
    ensures SetBudget(SetBudget(m, id, kind, amount), id, kind, amount) == SetBudget(m, id, kind, amount)
  {
    var m1 := SetBudget(m, id, kind, amount);
    assert SetBudget(m1, id, kind, amount).entities == m1.entities;
  }

  /**
   * Retrying after Meta was told but the commit failed, or after the call failed without our
   * knowing whether it reached Meta, ends exactly as if the first attempt had gone through.
   */
  lemma RetryIsIdempotent(w: World, user: User, aid: nat, cid: Id, failed: Env, env: Env)
    requires aid < |w.approvals| && BudgetSpec(w, user, aid, cid, failed).1.Err?
    ensures BudgetSpec(BudgetSpec(w, user, aid, cid, failed).0, user, aid, cid, env).1 == BudgetSpec(w, user, aid, cid, env).1
    ensures BudgetSpec(w, user, aid, cid, env).1.Ok? ==>
      BudgetSpec(BudgetSpec(w, user, aid, cid, failed).0, user, aid, cid, env).0 == BudgetSpec(w, user, aid, cid, env).0
  {
    var p := w.approvals[aid].payload;
    if p.BudgetPayload? && cid in w.content.campaigns && w.content.campaigns[cid].metaCampaignId.Some? {
      SetBudgetTwice(w.meta, w.content.campaigns[cid].metaCampaignId.value, p.budgetType, p.newBudget);
    }
  }

  /** A request is refused as stale exactly when the campaign's budget is not the one it was made against. */
  lemma StaleIff(w: World, user: User, aid: nat, cid: Id, env: Env)
    requires aid < |w.approvals| && w.approvals[aid].payload.BudgetPayload?
    requires cid in w.content.campaigns && w.content.campaigns[cid].metaCampaignId.Some?
    ensures BudgetSpec(w, user, aid, cid, env) == (w, Err(BudgetStale))
       <==> BudgetIn(w.content, cid) != Some(w.approvals[aid].payload.currentBudget)
  {
  }

  /**
   * Of two requests made against the same budget, carrying out one makes the other stale exactly
   * when that budget is at least 3 (smaller ones round back to themselves).
   */
  lemma SecondChangeIsStaleIff(w: World, a: Action, cid: Id, other: nat, user: User, env: Env)
    requires Sound(w.approvals) && ChangesBudget(w, a, cid)
    requires other < |w.approvals| && other != a.aid && w.approvals[other].subject == BudgetOf(cid)
    requires PayloadOf(w, a.aid).BudgetPayload? && PayloadOf(w, other).BudgetPayload?
    requires PayloadOf(w, other).currentBudget == PayloadOf(w, a.aid).currentBudget >= 0
    ensures var v := Next(w, a);
      BudgetSpec(v, user, other, cid, env) == (v, Err(BudgetStale)) <==> PayloadOf(w, other).currentBudget >= 3
  {
    hide Next, Stepped;
    ConsumedChangeTakesEffect(w, a, cid);
    var b := PayloadOf(w, a.aid).currentBudget;
    assert Typed(w.approvals[a.aid]);
    StepMovesIff(ScaleBudget, b);
    StepMovesIff(ReduceBudget, b);
    MetaIdStays(w, a, cid);
    StaleIff(Next(w, a), user, other, cid, env);
  }

  lemma MetaIdStays(w: World, a: Action, cid: Id)
    requires ChangesBudget(w, a, cid)
    ensures cid in Next(w, a).content.campaigns && Next(w, a).content.campaigns[cid].metaCampaignId.Some?
  {
    hide OtherApprovers;
  }

  // ---------- What else touches a budget ----------

  /** An edit that sets the campaign's budget by hand. */
  predicate EditsBudget(a: Action, cid: Id) { a.DoUpdate? && a.cid == cid && a.edit.budgetAmount.Some? }

  ghost predicate SameBudget(w: World, v: World, cid: Id) {
    cid in v.content.campaigns && BudgetIn(v.content, cid) == BudgetIn(w.content, cid)
  }

  lemma PublishKeepsBudget(w: World, pid: Id, env: Env, cid: Id)
    requires cid in w.content.campaigns
    ensures SameBudget(w, PublishSpec(w, pid, env).0, cid)
  {
    hide CurrentPlan, LatestApproved, Attempt;
    var guard := PublishGuard(w, pid, env);
    if guard.Ok? {
      var consumed := Consume(w, pid, guard.value);
      AttemptKeepsRows(Start(w.meta, consumed.content), Job(pid, AccountOf(w, w.content.campaigns[pid].clientId).value.id),
                       CurrentPlan(w.content, w.accounts, pid), env.fault);
    }
  }

  lemma RequestKeepsBudget(w: World, user: User, pid: Id, env: Env, cid: Id)
    requires cid in w.content.campaigns
    ensures SameBudget(w, RequestSpec(w, user, pid, env).0, cid)
  {
    hide BuildBundle, CurrentPlan;
  }

  lemma DecisionKeepsBudget(w: World, user: User, aid: nat, approve: bool, env: Env, cid: Id)
    requires cid in w.content.campaigns && !ChangesBudget(w, DoDecide(user, aid, approve, env), cid)
    ensures SameBudget(w, DecideSpec(w, user, aid, approve, env).0, cid)
  {
    hide OtherApprovers, ApproveLaunchSpec, RejectSpec, DecideCampaignSpec, BudgetSpec, SameBudget;
    match DecideGuard(w, user, aid, approve)
    case Err(_) => SameContent(w, w, cid);
    case Ok(a) =>
      match a.subject
      case CampaignPublish(pid) => CampaignDecisionKeepsBudget(w, user, aid, pid, approve, env, cid);
      case BudgetOf(bid) =>
        if approve { OtherBudgetKeepsBudget(w, user, aid, bid, env, cid); } else { RejectKeepsContent(w, user, aid, None, env, cid); }
      case TestLaunch(tid) =>
        if approve { LaunchKeepsContent(w, user, aid, tid, env, cid); } else { RejectKeepsContent(w, user, aid, Some(tid), env, cid); }
  }

  lemma SameContent(w: World, v: World, cid: Id)
    requires cid in w.content.campaigns && v.content == w.content
    ensures SameBudget(w, v, cid)
  {
  }

  lemma CampaignDecisionKeepsBudget(w: World, user: User, aid: nat, pid: Id, approve: bool, env: Env, cid: Id)
    requires aid < |w.approvals| && cid in w.content.campaigns
    ensures SameBudget(w, DecideCampaignSpec(w, user, aid, pid, approve, env).0, cid)
  {
    hide Decided;
  }

  /** A budget change of another campaign, or one that does not go through. */
  lemma OtherBudgetKeepsBudget(w: World, user: User, aid: nat, bid: Id, env: Env, cid: Id)
    requires aid < |w.approvals| && cid in w.content.campaigns && (bid == cid ==> BudgetSpec(w, user, aid, bid, env).1.Err?)
    ensures SameBudget(w, BudgetSpec(w, user, aid, bid, env).0, cid)
  {
    hide Decided, SetBudget;
  }

  lemma LaunchKeepsContent(w: World, user: User, aid: nat, tid: nat, env: Env, cid: Id)
    requires aid < |w.approvals| && cid in w.content.campaigns
    ensures SameBudget(w, ApproveLaunchSpec(w, user, aid, tid, env).0, cid)
  {
    hide Decided, Launched, AddStudy, StopStudy;
  }

  lemma RejectKeepsContent(w: World, user: User, aid: nat, test: Option<nat>, env: Env, cid: Id)
    requires aid < |w.approvals| && cid in w.content.campaigns
    ensures SameBudget(w, RejectSpec(w, user, aid, test, env).0, cid)
  {
    hide Decided;
  }

  /** Every other step leaves the campaign's budget as it is. */
  lemma OtherStepsKeepBudget(w: World, a: Action, cid: Id)
    requires cid in w.content.campaigns && !EditsBudget(a, cid) && !ChangesBudget(w, a, cid)
    ensures SameBudget(w, Next(w, a), cid)
  {
    hide RequestSpec, PublishSpec, DecideSpec, RequestLaunchSpec, CancelSpec, CreateTestSpec, RefreshSpec, UpdateSpec, SameBudget, ChangesBudget;
    match a
    case DoDecide(user, aid, approve, env) => DecisionKeepsBudget(w, user, aid, approve, env, cid);
    case DoRequestApproval(user, pid, env) => RequestKeepsBudget(w, user, pid, env, cid);
    case DoPublish(pid, env) => PublishKeepsBudget(w, pid, env, cid);
    case DoUpdate(user, pid, edit, env) => UpdateKeepsBudget(w, user, pid, edit, env, cid);
    case _ => PlainStepsKeepBudget(w, a, cid);
  }

  /** No step removes a campaign. */
  lemma CampaignStays(w: World, a: Action, cid: Id)
    requires cid in w.content.campaigns
    ensures cid in Next(w, a).content.campaigns
  {
    hide Next, ChangesBudget;
    if EditsBudget(a, cid) {
      UpdateKeepsCampaign(w, a.user, cid, a.edit, a.env);
    } else if ChangesBudget(w, a, cid) {
      MetaIdStays(w, a, cid);
    } else {
      OtherStepsKeepBudget(w, a, cid);
    }
  }

  lemma UpdateKeepsCampaign(w: World, user: User, cid: Id, e: CampaignEdit, env: Env)
    requires cid in w.content.campaigns
    ensures cid in Next(w, DoUpdate(user, cid, e, env)).content.campaigns
  {
  }

  lemma PlainStepsKeepBudget(w: World, a: Action, cid: Id)
    requires cid in w.content.campaigns && !a.DoDecide? && !a.DoRequestApproval? && !a.DoPublish? && !a.DoUpdate?
    ensures SameBudget(w, Next(w, a), cid)
  {
    hide RequestLaunchSpec, CancelSpec, CreateTestSpec, RefreshSpec, RequestSpec, PublishSpec, DecideSpec, ApplySpec;
    StepWritesOnly(w, a);
  }

  lemma UpdateKeepsBudget(w: World, user: User, pid: Id, e: CampaignEdit, env: Env, cid: Id)
    requires cid in w.content.campaigns && !(pid == cid && e.budgetAmount.Some?)
    ensures SameBudget(w, UpdateSpec(w, user, pid, e, env).0, cid)
  {
  }

  // ---------- Bounds over a run ----------

  ghost function ChangeCount(w: World, acts: seq<Action>, cid: Id): nat
    decreases |acts|
  {
    if acts == [] then 0
    else
      var front := acts[..|acts| - 1];
      ChangeCount(w, front, cid) + if ChangesBudget(After(w, front), acts[|acts| - 1], cid) then 1 else 0
  }

  function Pow(b: nat, n: nat): nat { if n == 0 then 1 else b * Pow(b, n - 1) }

  /** 0.8^n (b0 + 2) <= b + 2 <= 1.2^n (b0 + 2), multiplied by 5^n. */
  ghost predicate WithinSteps(b0: int, b: int, n: nat) {
    Pow(4, n) * (b0 + 2) <= Pow(5, n) * (b + 2) <= Pow(6, n) * (b0 + 2)
  }

  lemma OneMoreStep(b0: int, b: int, c: int, n: nat)
    requires WithinSteps(b0, b, n) && 4 * (b + 2) <= 5 * (c + 2) <= 6 * (b + 2)
    ensures WithinSteps(b0, c, n + 1)
  {
    var low, mid, high := Pow(4, n), Pow(5, n), Pow(6, n);
    Scaled(mid, 4 * (b + 2), 5 * (c + 2));
    Scaled(mid, 5 * (c + 2), 6 * (b + 2));
    Regrouped(4, low, b0 + 2);
    Regrouped(4, mid, b + 2);
    Regrouped(5, mid, c + 2);
    Regrouped(6, mid, b + 2);
    Regrouped(6, high, b0 + 2);
  }

  lemma Scaled(m: nat, x: int, y: int)
    requires x <= y
    ensures m * x <= m * y
  {
  }

  lemma Regrouped(k: int, m: int, x: int)
    ensures m * (k * x) == k * (m * x) == (k * m) * x
  {
  }

  ghost predicate NoBudgetEdits(acts: seq<Action>, cid: Id) {
    forall k :: 0 <= k < |acts| ==> !EditsBudget(acts[k], cid)
  }

  /**
   * After n carried-out changes and no edits by hand, a campaign's budget is within 20% per change
   * of where it started, up to rounding, and a positive budget is still positive.
   */
  lemma {:induction false} BudgetStaysWithinSteps(w: World, acts: seq<Action>, cid: Id) returns (b: int)
    requires Sound(w.approvals) && cid in w.content.campaigns && BudgetIn(w.content, cid).Some?
    requires BudgetIn(w.content, cid).value >= 0 && NoBudgetEdits(acts, cid)
    ensures cid in After(w, acts).content.campaigns && BudgetIn(After(w, acts).content, cid) == Some(b) && b >= 0
    ensures WithinSteps(BudgetIn(w.content, cid).value, b, ChangeCount(w, acts, cid))
    ensures BudgetIn(w.content, cid).value > 0 ==> b > 0
    decreases |acts|
  {
    hide Next, Sound, ChangesBudget, Stepped, WithinSteps;
    if acts == [] {
      b := BudgetIn(w.content, cid).value;
      ZeroSteps(b);
    } else {
      var front, last := acts[..|acts| - 1], acts[|acts| - 1];
      var v := After(w, front);
      var c := BudgetStaysWithinSteps(w, front, cid);
      AtMostOnePending(w, front);
      if ChangesBudget(v, last, cid) {
        b := ChangedBudget(v, last, cid);
        OneMoreStep(BudgetIn(w.content, cid).value, c, b, ChangeCount(w, front, cid));
      } else {
        OtherStepsKeepBudget(v, last, cid);
        b := c;
      }
    }
  }

  lemma ZeroSteps(b: int)
    ensures WithinSteps(b, b, 0)
  {
  }

  lemma ChangedBudget(w: World, a: Action, cid: Id) returns (b: int)
    requires Sound(w.approvals) && ChangesBudget(w, a, cid) && BudgetIn(w.content, cid).Some? && BudgetIn(w.content, cid).value >= 0
    ensures cid in Next(w, a).content.campaigns && BudgetIn(Next(w, a).content, cid) == Some(b) && b >= 0
    ensures var c := BudgetIn(w.content, cid).value;
      4 * (c + 2) <= 5 * (b + 2) <= 6 * (c + 2) && (c > 0 ==> b > 0)
  {
    hide Next, Stepped;
    ConsumedChangeTakesEffect(w, a, cid);
    MetaIdStays(w, a, cid);
    var c := BudgetIn(w.content, cid).value;
    assert Typed(w.approvals[a.aid]);
    b := PayloadOf(w, a.aid).newBudget;
    StepIsBounded(ScaleBudget, c);
    StepIsBounded(ReduceBudget, c);
  }
}
