/** Whole journeys through several services: a campaign from request to live tree, a test from draft to running study. */
module EndToEnd {
  import opened Core
  import opened PublishPlan
  import opened MetaStore
  import opened Rows
  import opened PlanRun
  import opened TreeCopy
  import opened World
  import opened BundleBuilder
  import opened PublishService
  import opened ApprovalsService
  import opened AbTestsService
  import opened CampaignsService
  import opened Workflow
  import opened ApprovalLifecycle
  import opened PublishHistory
  import opened LiveCampaign
  import opened BudgetChanges
  import opened Experiments
  import opened AbStatistics
  import opened Attribution

  // ---------- Drift ----------

  /** With a live approval and an account, a publish is refused as stale exactly when the plan has changed since. */
  lemma DriftIff(w: World, cid: Id, env: Env, aid: nat)
    requires Sound(w.approvals) && cid in w.content.campaigns && w.content.campaigns[cid].status != Published
    requires LatestApproved(w.approvals, cid) == Some(aid) && env.now <= w.approvals[aid].expiresAt
    ensures w.approvals[aid].payload.PublishPayload?
    ensures PublishGuard(w, cid, env) == Err(ApprovalStale) <==> w.approvals[aid].payload.plan != CurrentPlan(w.content, w.accounts, cid)
  {
    hide CurrentPlan, LatestApproved;
    assert Typed(w.approvals[aid]);
    assert IsApprovedPublish(w.approvals[aid], cid);
  }

  // ---------- A campaign goes live ----------

  /** Approvals of the campaign that still stand were decided before `now`. */
  ghost predicate StandSince(s: seq<Approval>, cid: Id, now: nat) {
    forall i :: 0 <= i < |s| && IsApprovedPublish(s[i], cid) ==> s[i].decidedAt < now
  }

  /** The approval decided after all others that stand is the one a publish finds. */
  lemma NewestIsLatest(s: seq<Approval>, cid: Id, aid: nat)
    requires aid < |s| && IsApprovedPublish(s[aid], cid)
    requires forall i :: 0 <= i < |s| && i != aid && IsApprovedPublish(s[i], cid) ==> s[i].decidedAt < s[aid].decidedAt
    ensures LatestApproved(s, cid) == Some(aid)
  {
    var found := LatestApproved(s, cid);
    assert found.Some? && s[aid].decidedAt <= s[found.value].decidedAt;
  }

  /** The world after a successful request, and then after a successful approval of it. */
  lemma RequestedAndApproved(w: World, user: User, cid: Id, e1: Env, approver: User, e2: Env) returns (v: World, aid: nat)
    requires StandSince(w.approvals, cid, e2.now) && RequestSpec(w, user, cid, e1).1.Ok?
    requires var v1 := RequestSpec(w, user, cid, e1).0; DecideSpec(v1, approver, |w.approvals|, true, e2).1.Ok?
    ensures aid == |w.approvals|
    ensures v == DecideSpec(RequestSpec(w, user, cid, e1).0, approver, aid, true, e2).0
    ensures aid < |v.approvals| && LatestApproved(v.approvals, cid) == Some(aid)
    ensures v.approvals[aid].expiresAt == e1.now + EXPIRY
    ensures cid in w.content.campaigns && cid in v.content.campaigns && v.content.campaigns[cid].status == Approved
    ensures AccountOf(v, v.content.campaigns[cid].clientId).Some? && v.accounts == w.accounts && v.meta == w.meta
    ensures v.approvals[aid].payload == PublishPayload(CurrentPlan(w.content, w.accounts, cid))
    ensures v.approvals[aid].payloadHash == HashOf(v.approvals[aid].payload)
    ensures v.content == WriteStatus(WriteStatus(w.content, cid, PendingApproval), cid, Approved)
  {
    hide BuildBundle, CurrentPlan, LatestApproved, OtherApprovers;
    aid := |w.approvals|;
    var v1 := RequestSpec(w, user, cid, e1).0;
    v := DecideSpec(v1, approver, aid, true, e2).0;
    forall i | 0 <= i < |v.approvals| && i != aid && IsApprovedPublish(v.approvals[i], cid)
      ensures v.approvals[i].decidedAt < v.approvals[aid].decidedAt
    {
      assert v.approvals[i] == v1.approvals[i] == w.approvals[i];
    }
    NewestIsLatest(v.approvals, cid, aid);
  }

  /**
   * A campaign requested, approved and published in time, with nothing failing in the run, is live:
   * the publish succeeds, the row is PUBLISHED, and Meta has gained exactly one ACTIVE copy of the tree
   * that was requested: every row of the campaign names its own new ACTIVE entity with the row's own
   * content, and the campaign can be paused again. Older approvals may still stand, if they were decided earlier.
   */
  lemma CampaignGoesLive(w: World, user: User, cid: Id, e1: Env, approver: User, e2: Env, e3: Env, stop: Env)
    requires StandSince(w.approvals, cid, e2.now) && RequestSpec(w, user, cid, e1).1.Ok?
    requires var v1 := RequestSpec(w, user, cid, e1).0; DecideSpec(v1, approver, |w.approvals|, true, e2).1.Ok?
    requires KeysOk(w.content) && Numbered(w.meta)
    requires e3.now <= e1.now + EXPIRY && e3.commitOk && e3.contextOk && e3.fault == NoFault && e3.finishOk
    ensures cid in w.content.campaigns
    ensures var v := DecideSpec(RequestSpec(w, user, cid, e1).0, approver, |w.approvals|, true, e2).0;
      var (end, r) := PublishSpec(v, cid, e3);
      var tree := Compile(BuildBundle(w.content, w.accounts, cid));
      && r.Ok? && cid in end.content.campaigns && end.content.campaigns[cid].status == Published
      && CampaignIsLive(v, end, cid)
      && (forall sid :: IsAdSetOf(w.content, cid, sid) ==> AdSetIsLive(v, end, cid, sid))
      && (forall sid, aid :: IsAdOf(w.content, cid, sid, aid) ==> AdIsLive(v, end, sid, aid))
      && (stop.contextOk && stop.callOk && stop.commitOk ==> PauseSpec(end, cid, stop).1.Ok?)
      && end.meta == CopyTree(w.meta, tree, WriteStatus(v.content, cid, Publishing), Active)
  {
    hide BuildBundle, CopyTree, Compile, KeysOk, LatestApproved, RequestSpec, DecideSpec, PublishSpec, CampaignIsLive, AdSetIsLive, AdIsLive, PauseSpec;
    var v, aid := RequestedAndApproved(w, user, cid, e1, approver, e2);
    StatusIsNotDrift(w.content, w.accounts, cid, PendingApproval);
    StatusIsNotDrift(WriteStatus(w.content, cid, PendingApproval), w.accounts, cid, Approved);
    assert PublishGuard(v, cid, e3) == Ok(aid);
    PublishIsSafe(v, cid, e3);
    PublishSucceedsIff(v, cid, e3, aid);
    PublishStatusIs(v, cid, e3, aid);
    EveryRowGoesLive(v, cid, e3);
    if stop.contextOk && stop.callOk && stop.commitOk { LiveCampaignCanBePaused(v, cid, e3, stop); }
  }

  /** What was published is not published again: until it is paused, further publishes and requests are refused without effect. */
  lemma PublishedOnce(w: World, cid: Id, env: Env, again: Env, user: User)
    requires PublishSpec(w, cid, env).1.Ok?
    ensures var v := PublishSpec(w, cid, env).0;
      && PublishSpec(v, cid, again) == (v, Err(AlreadyPublished))
      && RequestSpec(v, user, cid, again) in {(v, Err(AlreadyPublished)), (v, Err(NotFound))}
  {
    hide LatestApproved, BuildBundle, Attempt, OutOfScope;
    var aid := PublishGuard(w, cid, env).value;
    PublishStatusIs(w, cid, env, aid);
  }

  /** The same approval used more than 72 hours after its request is refused as expired, and nothing happens. */
  lemma LateApprovalExpires(w: World, user: User, cid: Id, e1: Env, approver: User, e2: Env, e3: Env)
    requires StandSince(w.approvals, cid, e2.now) && RequestSpec(w, user, cid, e1).1.Ok?
    requires var v1 := RequestSpec(w, user, cid, e1).0; DecideSpec(v1, approver, |w.approvals|, true, e2).1.Ok?
    ensures var v := DecideSpec(RequestSpec(w, user, cid, e1).0, approver, |w.approvals|, true, e2).0;
      PublishSpec(v, cid, e3) == (v, Err(ApprovalExpired)) <==> e3.now > e1.now + 259_200_000
  {
    hide BuildBundle, CurrentPlan, LatestApproved, RequestSpec, DecideSpec, RunPublish, Finish;
    var v, aid := RequestedAndApproved(w, user, cid, e1, approver, e2);
  }

  /**
   * Approval can be requested exactly while the campaign is not PUBLISHED. So one that a failed publish
   * left in PUBLISHING or ERROR is not stuck, and CampaignGoesLive leads on from there.
   */
  lemma StuckCampaignCanBeRequested(w: World, user: User, cid: Id, env: Env)
    requires cid in w.content.campaigns
    ensures RequestSpec(w, user, cid, env).1.Ok? <==>
      && w.content.campaigns[cid].status != Published
      && !OutOfScope(user, w.content.campaigns[cid].clientId) && (exists sid :: IsAdSetOf(w.content, cid, sid))
      && w.content.campaigns[cid].clientId in w.accounts && env.commitOk
    ensures var v := RequestSpec(w, user, cid, env).0;
      RequestSpec(w, user, cid, env).1.Ok? ==> cid in v.content.campaigns && v.content.campaigns[cid].status == PendingApproval
  {
    hide CurrentPlan, AdInfosOf;
    HasAdSetsIff(w.content, w.accounts, cid);
  }

  lemma HasAdSetsIff(c: Content, accounts: map<Id, Account>, cid: Id)
    requires cid in c.campaigns
    ensures BuildBundle(c, accounts, cid).adSets != [] <==> exists sid :: IsAdSetOf(c, cid, sid)
  {
    hide AdInfosOf;
    var ids := AdSetsOf(c, c.adSetScan, cid);
    forall sid ensures sid in ids <==> IsAdSetOf(c, cid, sid) { AdSetsOfIff(c, c.adSetScan, cid, sid); }
    if ids != [] { assert ids[0] in ids; }
  }

  /** A request leaves exactly one PENDING approval of the campaign, the new one with today's plan, and touches no other subject's. */
  lemma RequestIsTheOnlyPending(w: World, user: User, cid: Id, env: Env)
    requires RequestSpec(w, user, cid, env).1.Ok?
    ensures cid in w.content.campaigns
    ensures var s, n := RequestSpec(w, user, cid, env).0.approvals, |w.approvals|;
      && |s| == n + 1 && s[n].payload == PublishPayload(CurrentPlan(w.content, w.accounts, cid)) && s[n].requestedBy == user.id
      && (forall i :: 0 <= i < |s| && s[i].subject == CampaignPublish(cid) ==> (s[i].status == PENDING <==> i == n))
      && (forall i :: 0 <= i < n && (s[i].subject != CampaignPublish(cid) || w.approvals[i].status != PENDING) ==> s[i] == w.approvals[i])
  {
    hide BuildBundle, CurrentPlan;
  }

  /** Rejecting a publish request settles the approval, and returns the campaign to DRAFT exactly when it was still waiting. */
  lemma RejectReturnsToDraft(w: World, user: User, aid: nat, env: Env)
    requires DecideSpec(w, user, aid, false, env).1.Ok? && w.approvals[aid].subject.CampaignPublish?
    ensures var v, cid := DecideSpec(w, user, aid, false, env).0, w.approvals[aid].subject.cid;
      && |v.approvals| == |w.approvals| && v.approvals[aid].status == REJECTED
      && v.approvals[aid].decidedBy == Some(user.id) && v.approvals[aid].decidedAt == env.now
      && (forall i :: 0 <= i < |w.approvals| && i != aid ==> v.approvals[i] == w.approvals[i])
      && v.meta == w.meta && v.content.campaigns.Keys == w.content.campaigns.Keys
      && forall c :: c in w.content.campaigns ==>
           v.content.campaigns[c] == if c == cid && w.content.campaigns[c].status == PendingApproval
                                     then w.content.campaigns[c].(status := Draft) else w.content.campaigns[c]
  {
    hide OtherApprovers, DecideCampaignSpec, BudgetSpec, RejectSpec, ApproveLaunchSpec;
    RejectedCampaign(w, user, aid, w.approvals[aid].subject.cid, env);
  }

  lemma RejectedCampaign(w: World, user: User, aid: nat, cid: Id, env: Env)
    requires aid < |w.approvals| && DecideCampaignSpec(w, user, aid, cid, false, env).1.Ok?
    ensures var v := DecideCampaignSpec(w, user, aid, cid, false, env).0;
      && v.approvals == w.approvals[aid := v.approvals[aid]] && v.approvals[aid].status == REJECTED
      && v.approvals[aid].decidedBy == Some(user.id) && v.approvals[aid].decidedAt == env.now
      && v.meta == w.meta && v.content.campaigns.Keys == w.content.campaigns.Keys
      && forall c :: c in w.content.campaigns ==>
           v.content.campaigns[c] == if c == cid && w.content.campaigns[c].status == PendingApproval
                                     then w.content.campaigns[c].(status := Draft) else w.content.campaigns[c]
  {
  }

  // ---------- A new draft ----------

  /** Every publish and budget approval names a campaign that exists. */
  ghost predicate SubjectsExist(w: World) {
    forall i :: 0 <= i < |w.approvals| ==>
      match w.approvals[i].subject
      case CampaignPublish(cid) => cid in w.content.campaigns
      case BudgetOf(cid) => cid in w.content.campaigns
      case TestLaunch(_) => true
  }

  lemma StepKeepsSubjects(w: World, a: Action)
    requires SubjectsExist(w)
    ensures SubjectsExist(Next(w, a))
  {
    hide Next;
    CampaignsStay(w, a);
    if !a.DoRequestApproval? {
      var c := StepChanges(w, a);
      StepEvolves(w, a);
      assert forall i :: 0 <= i < |w.approvals| ==> Evolves(w.approvals[i], Next(w, a).approvals[i]);
    } else {
      RequestNamesItsCampaign(w, a.user, a.cid, a.env);
    }
  }

  lemma RequestNamesItsCampaign(w: World, user: User, cid: Id, env: Env)
    requires SubjectsExist(w)
    ensures SubjectsExist(Next(w, DoRequestApproval(user, cid, env)))
  {
    hide BuildBundle, CurrentPlan;
  }

  lemma CampaignsStay(w: World, a: Action)
    ensures w.content.campaigns.Keys <= Next(w, a).content.campaigns.Keys
  {
    hide Next, EditsBudget, ChangesBudget;
    forall cid | cid in w.content.campaigns ensures cid in Next(w, a).content.campaigns {
      CampaignStays(w, a, cid);
    }
  }

  lemma {:induction false} SubjectsAlwaysExist(w: World, acts: seq<Action>)
    requires SubjectsExist(w)
    ensures SubjectsExist(After(w, acts))
    decreases |acts|
  {
    hide Next, SubjectsExist;
    if acts != [] {
      SubjectsAlwaysExist(w, acts[..|acts| - 1]);
      StepKeepsSubjects(After(w, acts[..|acts| - 1]), acts[|acts| - 1]);
    }
  }

  /**
   * A new draft holds what was typed in and nothing else happens to it or because of it: it cannot be
   * published or paused, and the plan of every other campaign is what it was.
   */
  lemma NewDraftIsInert(w: World, user: User, cid: Id, input: DraftInput, found: bool, env: Env, later: Env)
    requires SubjectsExist(w) && CreateDraftSpec(w, user, cid, input, found, env).1.Ok?
    ensures cid !in w.content.campaigns && !OutOfScope(user, input.clientId)
    ensures var v := CreateDraftSpec(w, user, cid, input, found, env).0;
      && v.content.campaigns.Keys == w.content.campaigns.Keys + {cid}
      && var row := v.content.campaigns[cid];
      && row.clientId == input.clientId && row.name == input.name && row.goal == Some(input.goal)
      && row.budgetType == input.budgetType && row.budgetAmount == input.budgetAmount && row.targetingDraft == input.targetingDraft
      && row.status == Draft && row.metaCampaignId == None
      && PublishGuard(v, cid, later) == Err(NoApproval) && PauseSpec(v, cid, later) == (v, Err(NotPublished))
      && forall other :: other in w.content.campaigns ==>
           v.content.campaigns[other] == w.content.campaigns[other]
           && CurrentPlan(v.content, v.accounts, other) == CurrentPlan(w.content, w.accounts, other)
  {
    hide AdSetInfosOf, PlanOf;
    var v := CreateDraftSpec(w, user, cid, input, found, env).0;
    assert LatestApproved(v.approvals, cid) == None;
    forall other | other in w.content.campaigns
      ensures CurrentPlan(v.content, v.accounts, other) == CurrentPlan(w.content, w.accounts, other)
    {
      SameAdSets(w.content, v.content, other);
    }
  }

  /** Pausing touches exactly the campaign: its row and its Meta entity. */
  lemma PauseTouchesCampaign(w: World, cid: Id, env: Env)
    requires PauseSpec(w, cid, env).1.Ok?
    ensures cid in w.content.campaigns && w.content.campaigns[cid].metaCampaignId.Some?
    ensures var v, id := PauseSpec(w, cid, env).0, w.content.campaigns[cid].metaCampaignId.value;
      && v == w.(meta := v.meta, content := v.content)
      && v.content == w.content.(campaigns := w.content.campaigns[cid := w.content.campaigns[cid].(status := OnHold)])
      && v.meta.studies == w.meta.studies && v.meta.entities.Keys == w.meta.entities.Keys
      && (forall e :: e in w.meta.entities && e != id ==> v.meta.entities[e] == w.meta.entities[e])
      && (id.kind == CampaignType && id in w.meta.entities ==> v.meta.entities[id] == w.meta.entities[id].(status := Paused))
  {
  }

  // ---------- Who sees what ----------

  /** Viewers with a list of clients see no others; everybody else sees all. */
  predicate Sees(u: User, clientId: Id) { u.role in {Admin, AgencyOwner, AccountManager} || u.clientScope == [] || clientId in u.clientScope }

  /** A campaign is not found exactly when its client is not seen, and then nothing happens. */
  lemma ScopeDecidesCampaigns(w: World, user: User, cid: Id, e: CampaignEdit, input: TestInput, env: Env)
    requires cid in w.content.campaigns
    ensures var seen := Sees(user, w.content.campaigns[cid].clientId);
      && (RequestSpec(w, user, cid, env) == (w, Err(NotFound)) <==> !seen)
      && (UpdateSpec(w, user, cid, e, env) == (w, Err(NotFound)) <==> !seen)
      && (CreateTestSpec(w, user, cid, input, env) == (w, Err(NotFound)) <==> !seen)
  {
    hide BuildBundle, CurrentPlan, ResolveCell;
  }

  /** And so for tests, through the client of the test. */
  lemma ScopeDecidesTests(w: World, user: User, tid: nat, ar: Arith, cells: seq<LiveCell>, env: Env)
    requires tid < |w.tests| && IsArith(ar)
    ensures var seen := Sees(user, w.tests[tid].clientId);
      && (RequestLaunchSpec(w, user, tid, env) == (w, Err(NotFound)) <==> !seen)
      && (CancelSpec(w, user, tid, env) == (w, Err(NotFound)) <==> !seen)
      && (RefreshSpec(w, ar, user, tid, cells, env) == (w, Err(NotFound)) <==> !seen)
  {
    hide ResolveCell, PauseCells, IsArith, EvaluateAbTest, FindByEntity;
  }

  /**
   * A pause, a budget change or a cancellation that fails leaves all tables as they were, and changes
   * something on Meta only if its call was made or reached Meta.
   */
  lemma FailuresKeepTables(w: World, user: User, cid: Id, aid: nat, tid: nat, env: Env)
    requires aid < |w.approvals|
    ensures var (v, r) := PauseSpec(w, cid, env);
      r.Err? ==> v == w.(meta := v.meta) && (v.meta != w.meta ==> env.contextOk && (env.callOk || env.callReached))
    ensures var (v, r) := BudgetSpec(w, user, aid, cid, env);
      r.Err? ==> v == w.(meta := v.meta) && (v.meta != w.meta ==> env.contextOk && (env.callOk || env.callReached))
    ensures var (v, r) := CancelSpec(w, user, tid, env);
      r.Err? ==> v == w.(meta := v.meta) && (v.meta != w.meta ==> env.contextOk && (env.stopOk || env.stopReached))
  {
    hide SetStatus, SetBudget, StopStudy, PauseCells, OutOfScope;
  }

  // ---------- A test goes live ----------

  /** A test just created blocks another on the same cells, in either order, until it is finished. */
  lemma CreatedTestBlocksItsPair(w: World, user: User, cid: Id, input: TestInput, env: Env, other: TestInput, env': Env)
    requires CreateTestSpec(w, user, cid, input, env).1.Ok? && other.level == input.level
    requires (other.cellAId == input.cellAId && other.cellBId == input.cellBId) || (other.cellAId == input.cellBId && other.cellBId == input.cellAId)
    ensures var v := CreateTestSpec(w, user, cid, input, env).0;
      CreateTestSpec(v, user, cid, other, env') == (v, Err(DuplicateTest))
  {
    var v := CreateTestSpec(w, user, cid, input, env).0;
    var t := v.tests[|w.tests|];
    assert IsActiveTest(t) && IsOnPair(t, cid, other.cellAId, other.cellBId);
  }

  /**
   * A launch that is requested and approved leaves the test RUNNING on a fresh study, live with
   * exactly the two entities that its cells had on Meta when the launch was requested.
   */
  lemma TestGoesLive(w: World, user: User, tid: nat, e1: Env, approver: User, e2: Env)
    requires TestsOk(w) && RequestLaunchSpec(w, user, tid, e1).1.Ok?
    requires var v1 := RequestLaunchSpec(w, user, tid, e1).0; DecideSpec(v1, approver, |w.approvals|, true, e2).1.Ok?
    ensures tid < |w.tests|
    ensures var t := w.tests[tid];
      var a := ResolveCell(w.content, t.campaignId, t.level, t.cellAId);
      var b := ResolveCell(w.content, t.campaignId, t.level, t.cellBId);
      var end := DecideSpec(RequestLaunchSpec(w, user, tid, e1).0, approver, |w.approvals|, true, e2).0;
      && a.Some? && b.Some? && a.value.metaId.Some? && b.value.metaId.Some?
      && var study := w.meta.counter + 1;
      && study !in w.meta.studies && Holds(end, tid, study) && IsLive(end.meta, study)
      && end.meta.studies[study].cells == [CellSpec(a.value.name, a.value.metaId.value), CellSpec(b.value.name, b.value.metaId.value)]
      && end.tests[tid].cellAMetaId == a.value.metaId && end.tests[tid].cellBMetaId == b.value.metaId
  {
    hide Sound, NoTwins, Awaited, OtherApprovers, ResolveCell;
  }
}
