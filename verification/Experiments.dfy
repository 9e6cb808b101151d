/**
 * A/B tests over any run: their life cycle, and that no study is left live on Meta without a
 * RUNNING test that holds it, so that it can be cancelled.
 */
module Experiments {
  import opened Core
  import opened PublishPlan
  import opened MetaStore
  import opened PlanRun
  import opened PublishSafety
  import opened World
  import opened BundleBuilder
  import opened AbStatistics
  import opened Attribution
  import opened PublishService
  import opened ApprovalsService
  import opened AbTestsService
  import opened CampaignsService
  import opened RecommendationsService
  import opened Workflow
  import opened ApprovalLifecycle

  // ---------- The invariant ----------

  /** A launch request for the test is waiting. */
  ghost predicate Awaited(s: seq<Approval>, tid: nat) {
    exists i :: 0 <= i < |s| && s[i].status == PENDING && s[i].subject == TestLaunch(tid)
  }

  /** Tests that were never launched have no study; running ones have one. */
  predicate StudyFits(t: AbTest) {
    && (t.status == TestDraft || t.status == TestPending ==> t.metaTestId == None)
    && (t.status == Running || t.status == Concluded ==> t.metaTestId.Some?)
  }

  /** At most one unfinished test per campaign and unordered pair of cells. */
  ghost predicate NoTwins(tests: seq<AbTest>) {
    forall i, j :: 0 <= i < j < |tests| && tests[i].status !in {Concluded, Cancelled} && tests[j].status !in {Concluded, Cancelled} ==>
      !IsOnPair(tests[j], tests[i].campaignId, tests[i].cellAId, tests[i].cellBId)
  }

  ghost predicate LaunchesExist(w: World) {
    forall i :: 0 <= i < |w.approvals| && w.approvals[i].subject.TestLaunch? ==> w.approvals[i].subject.tid < |w.tests|
  }

  ghost predicate TestsOk(w: World) {
    && Sound(w.approvals) && Numbered(w.meta) && LaunchesExist(w)
    && (forall t :: 0 <= t < |w.tests| ==> StudyFits(w.tests[t]))
    && NoTwins(w.tests)
    && (forall t :: 0 <= t < |w.tests| ==> (w.tests[t].status == TestPending <==> Awaited(w.approvals, t)))
  }

  predicate Holds(w: World, tid: nat, study: nat) {
    tid < |w.tests| && w.tests[tid].status == Running && w.tests[tid].metaTestId == Some(study)
  }

  /** Every live study is held by the test it was created for. */
  ghost predicate LiveHeld(w: World) {
    forall s :: IsLive(w.meta, s) ==> s in w.launchedFor && Holds(w, w.launchedFor[s], s)
  }

  /** The launch whose record fails to commit, whose stop never reaches Meta and whose cleanup fails as well. */
  ghost predicate Orphans(w: World, a: Action) {
    && a.DoDecide? && a.approve && DecideGuard(w, a.user, a.aid, true).Ok? && a.aid < |w.approvals|
    && w.approvals[a.aid].subject.TestLaunch? && w.approvals[a.aid].payload.LaunchPayload?
    && w.approvals[a.aid].payload.spec.abTestId < |w.tests|
    && w.tests[w.approvals[a.aid].payload.spec.abTestId].status == TestPending
    && a.env.contextOk && a.env.callOk
    && !a.env.commitOk && !a.env.stopOk && !a.env.stopReached && !a.env.cleanupOk
  }

  // ---------- Steps that leave the tests alone ----------

  /** Tests and studies as before; other requests may have come and gone. */
  ghost predicate TestsUntouched(w: World, v: World) {
    && v.tests == w.tests && v.launchedFor == w.launchedFor && v.meta.studies == w.meta.studies && Numbered(v.meta)
    && Sound(v.approvals) && |w.approvals| <= |v.approvals|
    && (forall i :: 0 <= i < |w.approvals| && w.approvals[i].subject.TestLaunch? ==> v.approvals[i] == w.approvals[i])
    && (forall i :: 0 <= i < |v.approvals| && (i >= |w.approvals| || !w.approvals[i].subject.TestLaunch?) ==>
          !v.approvals[i].subject.TestLaunch?)
  }

  lemma UntouchedKeepsTests(w: World, v: World)
    requires TestsOk(w) && TestsUntouched(w, v)
    ensures TestsOk(v) && (LiveHeld(v) <==> LiveHeld(w))
  {
    hide Sound, Numbered, NoTwins;
    forall t | 0 <= t < |w.tests| ensures Awaited(v.approvals, t) <==> Awaited(w.approvals, t) {
      if Awaited(w.approvals, t) {
        var i :| 0 <= i < |w.approvals| && w.approvals[i].status == PENDING && w.approvals[i].subject == TestLaunch(t);
        assert v.approvals[i].status == PENDING;
      }
    }
    assert forall s :: IsLive(w.meta, s) <==> IsLive(v.meta, s);
    assert forall t, s :: Holds(w, t, s) <==> Holds(v, t, s);
  }

  lemma {:induction false} AttemptKeepsStudies(s: Run, job: Job, plan: Plan, f: Fault)
    requires Numbered(s.meta)
    ensures var m := Attempt(s, job, plan, f).run.meta; Numbered(m) && m.studies == s.meta.studies
    decreases |plan|
  {
    if plan != [] {
      CallKeepsStudies(s, job, plan[0]);
      if !Hits(f, s, plan[0]) { AttemptKeepsStudies(RunStep(s, job, plan[0]), job, plan[1..], Later(f)); }
    }
  }

  lemma CallKeepsStudies(s: Run, job: Job, step: Step)
    requires Numbered(s.meta)
    ensures Numbered(Call(s, job, step)) && Call(s, job, step).studies == s.meta.studies
  {
  }

  predicate IsTestAction(w: World, a: Action) {
    || a.DoCreateTest? || a.DoRequestLaunch? || a.DoCancel? || a.DoRefresh? || a.StudyEnds?
    || (a.DoDecide? && a.aid < |w.approvals| && w.approvals[a.aid].subject.TestLaunch?)
  }

  lemma OtherStepsLeaveTests(w: World, a: Action)
    requires Sound(w.approvals) && Numbered(w.meta) && !IsTestAction(w, a)
    ensures TestsUntouched(w, Next(w, a))
  {
    hide Sound, Next;
    StepKeepsSound(w, a);
    OtherApprovalsChange(w, a);
    OtherStepsKeepTables(w, a);
  }

  lemma OtherApprovalsChange(w: World, a: Action)
    requires !IsTestAction(w, a)
    ensures var v := Next(w, a).approvals;
      && |w.approvals| <= |v|
      && (forall i :: 0 <= i < |w.approvals| && w.approvals[i].subject.TestLaunch? ==> v[i] == w.approvals[i])
      && (forall i :: 0 <= i < |v| && (i >= |w.approvals| || !w.approvals[i].subject.TestLaunch?) ==> !v[i].subject.TestLaunch?)
  {
    hide Next, OtherApprovers, LatestApproved, PublishGuard;
    var c := StepChanges(w, a);
    if c.ConsumedOne? { PublishConsumesPublish(w, a.cid, a.env, c.aid); }
  }

  lemma PublishConsumesPublish(w: World, cid: Id, env: Env, aid: nat)
    requires PublishGuard(w, cid, env) == Ok(aid) && aid < |w.approvals|
    ensures w.approvals[aid].subject.CampaignPublish?
  {
  }

  lemma OtherStepsKeepTables(w: World, a: Action)
    requires Numbered(w.meta) && !IsTestAction(w, a)
    ensures var v := Next(w, a);
      v.tests == w.tests && v.launchedFor == w.launchedFor && v.meta.studies == w.meta.studies && Numbered(v.meta)
  {
    hide RequestSpec, PublishSpec, DecideSpec, PauseSpec, ApplySpec, UpdateSpec, CreateDraftSpec;
    match a
    case DoDecide(user, aid, approve, env) => DecisionKeepsTables(w, user, aid, approve, env);
    case DoPublish(cid, env) => PublishKeepsTables(w, cid, env);
    case DoPause(cid, env) => PauseKeepsTables(w, cid, env);
    case _ => PlainStepsKeepTables(w, a);
  }

  lemma PlainStepsKeepTables(w: World, a: Action)
    requires !IsTestAction(w, a) && !a.DoDecide? && !a.DoPublish? && !a.DoPause?
    ensures var v := Next(w, a); v.tests == w.tests && v.launchedFor == w.launchedFor && v.meta == w.meta
  {
    hide Next;
    StepWritesOnly(w, a);
  }

  lemma PauseKeepsTables(w: World, cid: Id, env: Env)
    requires Numbered(w.meta)
    ensures var v := PauseSpec(w, cid, env).0;
      v.tests == w.tests && v.launchedFor == w.launchedFor && v.meta.studies == w.meta.studies && Numbered(v.meta)
  {
  }

  lemma DecisionKeepsTables(w: World, user: User, aid: nat, approve: bool, env: Env)
    requires Numbered(w.meta) && (aid < |w.approvals| ==> !w.approvals[aid].subject.TestLaunch?)
    ensures var v := DecideSpec(w, user, aid, approve, env).0;
      v.tests == w.tests && v.launchedFor == w.launchedFor && v.meta.studies == w.meta.studies && Numbered(v.meta)
  {
    hide OtherApprovers, Numbered, SetBudget, WriteBudget, Decided;
    if DecideGuard(w, user, aid, approve).Ok? && w.approvals[aid].subject.BudgetOf? {
      BudgetKeepsTables(w, user, aid, w.approvals[aid].subject.campaign, env);
    }
  }

  lemma BudgetKeepsTables(w: World, user: User, aid: nat, cid: Id, env: Env)
    requires Numbered(w.meta) && aid < |w.approvals|
    ensures var v := BudgetSpec(w, user, aid, cid, env).0;
      v.tests == w.tests && v.launchedFor == w.launchedFor && v.meta.studies == w.meta.studies && Numbered(v.meta)
  {
  }

  lemma PublishKeepsTables(w: World, cid: Id, env: Env)
    requires Numbered(w.meta)
    ensures var v := PublishSpec(w, cid, env).0;
      v.tests == w.tests && v.launchedFor == w.launchedFor && v.meta.studies == w.meta.studies && Numbered(v.meta)
  {
    hide CurrentPlan, LatestApproved, Attempt;
    var guard := PublishGuard(w, cid, env);
    if guard.Ok? {
      var consumed := Consume(w, cid, guard.value);
      AttemptKeepsStudies(Start(w.meta, consumed.content), Job(cid, AccountOf(w, w.content.campaigns[cid].clientId).value.id),
                          CurrentPlan(w.content, w.accounts, cid), env.fault);
    }
  }

  // ---------- Who is awaited after a change ----------

  lemma AwaitedAfterRequest(s: seq<Approval>, tid: nat, payload: Payload, who: Id, now: nat, t: nat)
    ensures Awaited(Changed(s, Superseded(TestLaunch(tid), payload, who, now)), t) <==> t == tid || Awaited(s, t)
  {
    var r := Changed(s, Superseded(TestLaunch(tid), payload, who, now));
    assert r[|s|].status == PENDING && r[|s|].subject == TestLaunch(tid);
    if t != tid && Awaited(s, t) {
      var i :| 0 <= i < |s| && s[i].status == PENDING && s[i].subject == TestLaunch(t);
      assert r[i] == s[i];
    }
  }

  lemma AwaitedAfterWithdrawal(s: seq<Approval>, tid: nat, t: nat)
    ensures Awaited(ExpirePending(s, TestLaunch(tid)), t) <==> t != tid && Awaited(s, t)
  {
    var r := ExpirePending(s, TestLaunch(tid));
    if t != tid && Awaited(s, t) {
      var i :| 0 <= i < |s| && s[i].status == PENDING && s[i].subject == TestLaunch(t);
      assert r[i] == s[i];
    }
  }

  lemma AwaitedAfterDecision(s: seq<Approval>, aid: nat, status: ApprovalStatus, who: Id, now: nat, tid: nat, t: nat)
    requires OnePending(s) && aid < |s| && s[aid].status == PENDING && s[aid].subject == TestLaunch(tid) && status != PENDING
    ensures Awaited(s[aid := Decided(s[aid], status, who, now)], t) <==> t != tid && Awaited(s, t)
  {
    var r := s[aid := Decided(s[aid], status, who, now)];
    if t != tid && Awaited(s, t) {
      var i :| 0 <= i < |s| && s[i].status == PENDING && s[i].subject == TestLaunch(t);
      assert r[i] == s[i];
    }
  }

  // ---------- One test changes ----------

  /** A changed row that stays in place as far as the other tests are concerned. */
  ghost predicate SameIdentity(t: AbTest, u: AbTest) {
    && u.clientId == t.clientId && u.campaignId == t.campaignId && u.cellAId == t.cellAId && u.cellBId == t.cellBId
    && (IsActiveTest(u) ==> IsActiveTest(t))
  }

  lemma ReplacedKeepsTwins(tests: seq<AbTest>, tid: nat, u: AbTest)
    requires tid < |tests| && NoTwins(tests) && SameIdentity(tests[tid], u)
    ensures NoTwins(tests[tid := u])
  {
    var r := tests[tid := u];
    forall i, j | 0 <= i < j < |r| && IsActiveTest(r[i]) && IsActiveTest(r[j])
      ensures !IsOnPair(r[j], r[i].campaignId, r[i].cellAId, r[i].cellBId)
    {
      assert IsActiveTest(tests[i]) && IsActiveTest(tests[j]);
      assert !IsOnPair(tests[j], tests[i].campaignId, tests[i].cellAId, tests[i].cellBId);
    }
  }

  /** Replacing one row, with its launch request coming or going to match. */
  lemma ReplacedTest(w: World, v: World, tid: nat, u: AbTest)
    requires TestsOk(w) && tid < |w.tests| && v.tests == w.tests[tid := u]
    requires Sound(v.approvals) && Numbered(v.meta) && LaunchesExist(v)
    requires SameIdentity(w.tests[tid], u) && StudyFits(u) && (u.status == TestPending <==> Awaited(v.approvals, tid))
    requires forall t :: 0 <= t < |w.tests| && t != tid ==> (Awaited(v.approvals, t) <==> Awaited(w.approvals, t))
    ensures TestsOk(v)
  {
    hide Sound, Numbered, LaunchesExist, NoTwins, Awaited;
    ReplacedKeepsTwins(w.tests, tid, u);
  }

  lemma CreateKeepsTests(w: World, user: User, cid: Id, input: TestInput, env: Env)
    requires TestsOk(w)
    ensures var v := CreateTestSpec(w, user, cid, input, env).0; TestsOk(v) && (LiveHeld(w) ==> LiveHeld(v))
  {
    hide Sound, Numbered, ResolveCell;
    var v := CreateTestSpec(w, user, cid, input, env).0;
    if v != w {
      var n := |w.tests|;
      assert !Awaited(w.approvals, n);
      assert forall i :: 0 <= i < n ==> v.tests[i] == w.tests[i];
    }
  }

  lemma LaunchRequestKeepsTests(w: World, user: User, tid: nat, env: Env)
    requires TestsOk(w)
    ensures var v := RequestLaunchSpec(w, user, tid, env).0; TestsOk(v) && (LiveHeld(w) ==> LiveHeld(v))
  {
    hide Sound, Numbered, NoTwins;
    var v := RequestLaunchSpec(w, user, tid, env).0;
    if v != w {
      var spec := LaunchSpecOf(w, tid).value;
      StepKeepsSound(w, DoRequestLaunch(user, tid, env));
      var u := w.tests[tid].(status := TestPending);
      forall t | 0 <= t < |w.tests| ensures Awaited(v.approvals, t) <==> t == tid || Awaited(w.approvals, t) {
        AwaitedAfterRequest(w.approvals, tid, LaunchPayload(spec), user.id, env.now, t);
      }
      ReplacedTest(w, v, tid, u);
    }
  }

  // ---------- Stopping and pausing leave the other studies alone ----------

  lemma PauseKeepsStudies(m: Meta, t: AbTest, env: Env)
    ensures PauseCells(m, t, env).studies == m.studies && PauseCells(m, t, env).counter == m.counter
    ensures Numbered(m) ==> Numbered(PauseCells(m, t, env))
  {
  }

  /** A new state of Meta in which no study has come to life. */
  lemma MetaKeepsTests(w: World, m: Meta)
    requires TestsOk(w) && Numbered(m) && forall s :: IsLive(m, s) ==> IsLive(w.meta, s)
    ensures var v := w.(meta := m); TestsOk(v) && (LiveHeld(w) ==> LiveHeld(v))
  {
    hide Sound, Numbered, NoTwins, Awaited, StudyFits;
  }

  /** Cancelling a test whose study, if it has one, is no longer live. */
  lemma CancelCommitKeepsTests(w: World, user: User, tid: nat, env: Env)
    requires TestsOk(w) && tid < |w.tests| && Sound(ExpirePending(w.approvals, TestLaunch(tid)))
    requires w.tests[tid].metaTestId.Some? ==> !IsLive(w.meta, w.tests[tid].metaTestId.value)
    ensures var v := CancelCommit(w, tid, env).0; TestsOk(v) && (LiveHeld(w) ==> LiveHeld(v))
  {
    hide Sound, Numbered, NoTwins, Awaited;
    var v := CancelCommit(w, tid, env).0;
    if env.commitOk {
      forall t | 0 <= t < |w.tests| ensures Awaited(v.approvals, t) <==> t != tid && Awaited(w.approvals, t) {
        AwaitedAfterWithdrawal(w.approvals, tid, t);
      }
      ReplacedTest(w, v, tid, w.tests[tid].(status := Cancelled));
    }
  }

  lemma CancelKeepsTests(w: World, user: User, tid: nat, env: Env)
    requires TestsOk(w)
    ensures var v := CancelSpec(w, user, tid, env).0; TestsOk(v) && (LiveHeld(w) ==> LiveHeld(v))
  {
    hide TestsOk, LiveHeld, PauseCells, CancelCommit, Sound;
    if GetTest(w, user, tid).Ok? {
      var t := w.tests[tid];
      WithdrawalKeepsSound(w, tid);
      if t.status == Running && t.metaTestId.Some? {
        var stopped := StopStudy(w.meta, t.metaTestId.value);
        var paused := PauseCells(stopped, t, env);
        PauseKeepsStudies(stopped, t, env);
        OrderGives(w);
        MetaKeepsTests(w, stopped);
        MetaKeepsTests(w, paused);
        CancelCommitKeepsTests(w.(meta := paused), user, tid, env);
      } else if t.status != Cancelled && t.status != Concluded {
        OrderGives(w);
        CancelCommitKeepsTests(w, user, tid, env);
      }
    }
  }

  lemma WithdrawalKeepsSound(w: World, tid: nat)
    requires TestsOk(w)
    ensures Sound(ExpirePending(w.approvals, TestLaunch(tid)))
  {
  }

  lemma OrderGives(w: World)
    requires TestsOk(w)
    ensures Sound(w.approvals) && Numbered(w.meta) && forall t :: 0 <= t < |w.tests| ==> StudyFits(w.tests[t])
  {
  }

  lemma RefreshKeepsTests(w: World, ar: Arith, user: User, tid: nat, cells: seq<LiveCell>, env: Env)
    requires TestsOk(w) && IsArith(ar)
    ensures var v := RefreshSpec(w, ar, user, tid, cells, env).0; TestsOk(v) && (LiveHeld(w) ==> LiveHeld(v))
  {
    hide Sound, Numbered, NoTwins, Awaited, Attribute;
    var v := RefreshSpec(w, ar, user, tid, cells, env).0;
    if v.tests != w.tests {
      ReplacedTest(w, v, tid, v.tests[tid]);
    }
  }

  lemma EndKeepsTests(w: World, study: nat)
    requires TestsOk(w)
    ensures var v := w.(meta := EndStudy(w.meta, study)); TestsOk(v) && (LiveHeld(w) ==> LiveHeld(v))
  {
    hide Sound, NoTwins, Awaited;
  }

  // ---------- Deciding a launch ----------

  lemma RejectKeepsTests(w: World, user: User, aid: nat, env: Env)
    requires TestsOk(w) && DecideGuard(w, user, aid, false).Ok? && w.approvals[aid].subject.TestLaunch?
    ensures var v := DecideSpec(w, user, aid, false, env).0; TestsOk(v) && (LiveHeld(w) ==> LiveHeld(v))
  {
    hide TestsOk, LiveHeld, Sound;
    OrderGives(w);
    var tid := w.approvals[aid].subject.tid;
    StepKeepsSound(w, DoDecide(user, aid, false, env));
    PendingHasWaited(w, aid, tid);
    if env.commitOk { RejectedKeepsTests(w, user, aid, tid, env); }
  }

  lemma RejectedKeepsTests(w: World, user: User, aid: nat, tid: nat, env: Env)
    requires TestsOk(w) && aid < |w.approvals| && w.approvals[aid].status == PENDING && w.approvals[aid].subject == TestLaunch(tid)
    requires tid < |w.tests| && w.tests[tid].status == TestPending && env.commitOk
    requires Sound(RejectSpec(w, user, aid, Some(tid), env).0.approvals)
    ensures var v := RejectSpec(w, user, aid, Some(tid), env).0; TestsOk(v) && (LiveHeld(w) ==> LiveHeld(v))
  {
    hide Sound, Numbered, NoTwins, Awaited;
    var v := RejectSpec(w, user, aid, Some(tid), env).0;
    DecisionSettles(w, v, aid, REJECTED, user.id, env.now, tid);
    ReplacedTest(w, v, tid, w.tests[tid].(status := TestDraft));
  }

  lemma PendingHasWaited(w: World, aid: nat, tid: nat)
    requires TestsOk(w) && aid < |w.approvals| && w.approvals[aid].status == PENDING && w.approvals[aid].subject == TestLaunch(tid)
    ensures tid < |w.tests| && w.tests[tid].status == TestPending && Typed(w.approvals[aid])
  {
    assert Awaited(w.approvals, tid);
  }

  /** A decided launch request no longer waits; the others still do. */
  lemma DecisionSettles(w: World, v: World, aid: nat, status: ApprovalStatus, who: Id, now: nat, tid: nat)
    requires Sound(w.approvals) && aid < |w.approvals| && status != PENDING
    requires w.approvals[aid].status == PENDING && w.approvals[aid].subject == TestLaunch(tid)
    requires v.approvals == w.approvals[aid := Decided(w.approvals[aid], status, who, now)]
    ensures forall t: nat :: Awaited(v.approvals, t) <==> t != tid && Awaited(w.approvals, t)
  {
    forall t: nat ensures Awaited(v.approvals, t) <==> t != tid && Awaited(w.approvals, t) {
      AwaitedAfterDecision(w.approvals, aid, status, who, now, tid, t);
    }
  }

  /** Approving a launch keeps the tests in order, and live studies held unless every way back failed. */
  lemma ApproveLaunchKeepsTests(w: World, user: User, aid: nat, env: Env)
    requires TestsOk(w) && DecideGuard(w, user, aid, true).Ok? && w.approvals[aid].subject.TestLaunch?
    ensures var a := DoDecide(user, aid, true, env);
      TestsOk(Next(w, a)) && (LiveHeld(w) ==> (LiveHeld(Next(w, a)) <==> !Orphans(w, a)))
  {
    hide Sound, NoTwins, Awaited, OtherApprovers;
    var a := DoDecide(user, aid, true, env);
    var tid := w.approvals[aid].subject.tid;
    PendingHasWaited(w, aid, tid);
    StepKeepsSound(w, a);
    if env.contextOk && env.callOk {
      var spec := w.approvals[aid].payload.spec;
      LaunchKeepsTests(w, user, aid, tid, spec, env);
    }
  }

  lemma LaunchKeepsTests(w: World, user: User, aid: nat, tid: nat, spec: LaunchSpec, env: Env)
    requires TestsOk(w) && aid < |w.approvals| && spec.abTestId == tid < |w.tests|
    requires w.approvals[aid].status == PENDING && w.approvals[aid].subject == TestLaunch(tid) && w.tests[tid].status == TestPending
    requires Sound(LaunchOutcome(w, user, aid, spec, env).0.approvals)
    ensures var v := LaunchOutcome(w, user, aid, spec, env).0;
      TestsOk(v) && (LiveHeld(w) ==> (LiveHeld(v) <==> env.commitOk || env.stopOk || env.stopReached || env.cleanupOk))
  {
    hide TestsOk, LiveHeld, LaunchOutcome;
    LaunchStaysInOrder(w, user, aid, tid, spec, env);
    OrderGives(w);
    if LiveHeld(w) { LaunchHeldIff(w, user, aid, tid, spec, env); }
  }

  lemma LaunchStaysInOrder(w: World, user: User, aid: nat, tid: nat, spec: LaunchSpec, env: Env)
    requires TestsOk(w) && aid < |w.approvals| && spec.abTestId == tid < |w.tests|
    requires w.approvals[aid].status == PENDING && w.approvals[aid].subject == TestLaunch(tid) && w.tests[tid].status == TestPending
    requires Sound(LaunchOutcome(w, user, aid, spec, env).0.approvals)
    ensures TestsOk(LaunchOutcome(w, user, aid, spec, env).0)
  {
    hide Sound, NoTwins, Awaited;
    var v := LaunchOutcome(w, user, aid, spec, env).0;
    assert Numbered(v.meta);
    if v.approvals != w.approvals {
      DecisionSettles(w, v, aid, v.approvals[aid].status, user.id, env.now, tid);
      ReplacedTest(w, v, tid, v.tests[tid]);
    }
  }

  /** The fresh study is held, or not live, unless commit, stop and cleanup all come to nothing. */
  lemma LaunchHeldIff(w: World, user: User, aid: nat, tid: nat, spec: LaunchSpec, env: Env)
    requires Numbered(w.meta) && aid < |w.approvals| && spec.abTestId == tid < |w.tests| && w.tests[tid].status == TestPending
    requires StudyFits(w.tests[tid]) && LiveHeld(w)
    ensures LiveHeld(LaunchOutcome(w, user, aid, spec, env).0) <==> env.commitOk || env.stopOk || env.stopReached || env.cleanupOk
  {
    var v := LaunchOutcome(w, user, aid, spec, env).0;
    var study := w.meta.counter + 1;
    assert study !in w.meta.studies;
    assert IsLive(v.meta, study) <==> env.commitOk || (!env.stopOk && !env.stopReached);
    assert forall s :: s != study ==> (IsLive(v.meta, s) <==> IsLive(w.meta, s));
  }

  // ---------- Main results ----------

  /** One step keeps the tests in order, and leaves an orphan exactly when it is the launch where every way back fails. */
  lemma StepOrphansIff(w: World, a: Action)
    requires TestsOk(w)
    ensures TestsOk(Next(w, a)) && (LiveHeld(w) ==> (LiveHeld(Next(w, a)) <==> !Orphans(w, a)))
  {
    hide TestsOk, LiveHeld, Sound, Numbered, RequestLaunchSpec, CancelSpec, RefreshSpec, CreateTestSpec, DecideSpec;
    if !IsTestAction(w, a) {
      OtherStepIsHarmless(w, a);
    } else {
      match a
      case DoCreateTest(user, cid, input, env) => CreateKeepsTests(w, user, cid, input, env);
      case DoRequestLaunch(user, tid, env) => LaunchRequestKeepsTests(w, user, tid, env);
      case DoCancel(user, tid, env) => CancelKeepsTests(w, user, tid, env);
      case DoRefresh(ar, user, tid, cells, env) => if IsArith(ar) { RefreshKeepsTests(w, ar, user, tid, cells, env); }
      case StudyEnds(study) => EndKeepsTests(w, study);
      case DoDecide(user, aid, approve, env) => DecideLaunchOrphansIff(w, user, aid, approve, env);
    }
  }

  lemma OtherStepIsHarmless(w: World, a: Action)
    requires TestsOk(w) && !IsTestAction(w, a)
    ensures TestsOk(Next(w, a)) && (LiveHeld(w) ==> LiveHeld(Next(w, a))) && !Orphans(w, a)
  {
    hide Next, LiveHeld, TestsUntouched;
    OtherStepsLeaveTests(w, a);
    UntouchedKeepsTests(w, Next(w, a));
  }

  lemma DecideLaunchOrphansIff(w: World, user: User, aid: nat, approve: bool, env: Env)
    requires TestsOk(w) && aid < |w.approvals| && w.approvals[aid].subject.TestLaunch?
    ensures var a := DoDecide(user, aid, approve, env);
      TestsOk(Next(w, a)) && (LiveHeld(w) ==> (LiveHeld(Next(w, a)) <==> !Orphans(w, a)))
  {
    hide TestsOk, LiveHeld, ApproveLaunchSpec, RejectSpec, OtherApprovers;
    if DecideGuard(w, user, aid, approve).Ok? {
      if approve { ApproveLaunchKeepsTests(w, user, aid, env); } else { RejectKeepsTests(w, user, aid, env); }
    }
  }

  /** Over every run the tests stay in order, whatever fails. */
  lemma {:induction false} TestsStayInOrder(w: World, acts: seq<Action>)
    requires TestsOk(w)
    ensures TestsOk(After(w, acts))
    decreases |acts|
  {
    hide Next, TestsOk;
    if acts != [] {
      var front := acts[..|acts| - 1];
      TestsStayInOrder(w, front);
      StepOrphansIff(After(w, front), acts[|acts| - 1]);
    }
  }

  ghost predicate OneLiveStudyEach(w: World) {
    forall s, r | s in w.launchedFor && r in w.launchedFor && IsLive(w.meta, s) && IsLive(w.meta, r) ::
      w.launchedFor[s] == w.launchedFor[r] ==> s == r
  }

  /** No launch of the run suffers the triple failure. */
  ghost predicate NeverOrphans(w: World, acts: seq<Action>) {
    forall k :: 0 <= k < |acts| ==> !Orphans(After(w, acts[..k]), acts[k])
  }

  /**
   * No orphaned live experiment: in every run without a launch whose commit, compensating stop and
   * cleanup all fail, each live study is held by the RUNNING test it was created for; hence a test
   * has at most one live study.
   */
  lemma {:induction false} NoOrphanedExperiment(w: World, acts: seq<Action>)
    requires TestsOk(w) && LiveHeld(w) && NeverOrphans(w, acts)
    ensures LiveHeld(After(w, acts))
    ensures OneLiveStudyEach(After(w, acts))
    decreases |acts|
  {
    hide Next, TestsOk, Orphans;
    if acts != [] {
      var n := |acts| - 1;
      var front := acts[..n];
      assert NeverOrphans(w, front) by {
        forall k | 0 <= k < n ensures !Orphans(After(w, front[..k]), front[k]) { assert front[..k] == acts[..k]; }
      }
      NoOrphanedExperiment(w, front);
      TestsStayInOrder(w, front);
      assert !Orphans(After(w, acts[..n]), acts[n]);
      StepOrphansIff(After(w, front), acts[n]);
    }
  }

  // ---------- The life of one test ----------

  /** A finished test stays finished, a running one never goes back, and a launch is never rewritten. */
  ghost predicate TestEvolves(t: AbTest, u: AbTest) {
    && u.clientId == t.clientId && u.campaignId == t.campaignId && u.level == t.level && u.metric == t.metric
    && u.cellAId == t.cellAId && u.cellBId == t.cellBId
    && (t.metaTestId.Some? ==>
          u.metaTestId == t.metaTestId && u.cellAMetaId == t.cellAMetaId && u.cellBMetaId == t.cellBMetaId)
    && (t.status == Running ==> u.status == Running || u.status == Concluded || u.status == Cancelled)
    && (t.status == Cancelled ==> u.status == Cancelled || (u.status == Concluded && t.metaTestId.Some?))
    && (t.status == Cancelled || t.status == Concluded ==> u.metaTestId == t.metaTestId)
    && (t.status == Concluded ==> u.status == Concluded)
  }

  ghost predicate TestsEvolve(s: seq<AbTest>, r: seq<AbTest>) {
    |s| <= |r| && forall i :: 0 <= i < |s| ==> TestEvolves(s[i], r[i])
  }

  lemma StepEvolvesTests(w: World, a: Action)
    requires TestsOk(w)
    ensures TestsEvolve(w.tests, Next(w, a).tests)
  {
    hide Sound, Numbered, RequestLaunchSpec, CancelSpec, RefreshSpec, CreateTestSpec, DecideSpec, NoTwins, Awaited, LaunchesExist, HasDuplicate;
    if !IsTestAction(w, a) {
      UntouchedTestsEvolve(w, a);
    } else {
      match a
      case DoCreateTest(user, cid, input, env) => CreateEvolves(w, user, cid, input, env);
      case DoRequestLaunch(user, tid, env) => LaunchRequestEvolves(w, user, tid, env);
      case DoCancel(user, tid, env) => CancelEvolves(w, user, tid, env);
      case DoRefresh(ar, user, tid, cells, env) => if IsArith(ar) { RefreshEvolves(w, ar, user, tid, cells, env); }
      case StudyEnds(study) =>
      case DoDecide(user, aid, approve, env) => DecideEvolves(w, user, aid, approve, env);
    }
  }

  lemma UntouchedTestsEvolve(w: World, a: Action)
    requires TestsOk(w) && !IsTestAction(w, a)
    ensures TestsEvolve(w.tests, Next(w, a).tests)
  {
    hide Next, Sound, Numbered;
    OtherStepsKeepTables(w, a);
  }

  lemma CreateEvolves(w: World, user: User, cid: Id, input: TestInput, env: Env)
    ensures TestsEvolve(w.tests, CreateTestSpec(w, user, cid, input, env).0.tests)
  {
    hide ResolveCell, HasDuplicate;
  }

  lemma LaunchRequestEvolves(w: World, user: User, tid: nat, env: Env)
    ensures TestsEvolve(w.tests, RequestLaunchSpec(w, user, tid, env).0.tests)
  {
    hide ResolveCell;
  }

  lemma ReplacedEvolves(tests: seq<AbTest>, tid: nat, u: AbTest)
    requires tid < |tests| && TestEvolves(tests[tid], u)
    ensures TestsEvolve(tests, tests[tid := u])
  {
  }

  lemma CancelEvolves(w: World, user: User, tid: nat, env: Env)
    ensures TestsEvolve(w.tests, CancelSpec(w, user, tid, env).0.tests)
  {
    hide PauseCells, TestsEvolve, StopStudy;
    TestsEvolveSame(w.tests);
    if tid < |w.tests| && w.tests[tid].status != Cancelled && w.tests[tid].status != Concluded {
      ReplacedEvolves(w.tests, tid, w.tests[tid].(status := Cancelled));
    }
  }

  lemma TestsEvolveSame(tests: seq<AbTest>)
    ensures TestsEvolve(tests, tests)
  {
  }

  lemma RefreshEvolves(w: World, ar: Arith, user: User, tid: nat, cells: seq<LiveCell>, env: Env)
    requires IsArith(ar)
    ensures TestsEvolve(w.tests, RefreshSpec(w, ar, user, tid, cells, env).0.tests)
  {
    hide Attribute, IsArith;
  }

  lemma DecideEvolves(w: World, user: User, aid: nat, approve: bool, env: Env)
    requires forall t :: 0 <= t < |w.tests| ==> StudyFits(w.tests[t])
    requires aid < |w.approvals| && w.approvals[aid].subject.TestLaunch?
    ensures TestsEvolve(w.tests, DecideSpec(w, user, aid, approve, env).0.tests)
  {
    hide OtherApprovers, ApproveLaunchSpec, RejectSpec, StudyFits;
    if DecideGuard(w, user, aid, approve).Ok? {
      if approve {
        LaunchEvolves(w, user, aid, w.approvals[aid].subject.tid, env);
      } else {
        RejectEvolves(w, user, aid, Some(w.approvals[aid].subject.tid), env);
      }
    }
  }

  lemma LaunchEvolves(w: World, user: User, aid: nat, tid: nat, env: Env)
    requires aid < |w.approvals| && forall t :: 0 <= t < |w.tests| ==> StudyFits(w.tests[t])
    ensures TestsEvolve(w.tests, ApproveLaunchSpec(w, user, aid, tid, env).0.tests)
  {
    hide AddStudy, StopStudy, TestsEvolve, Decided;
    TestsEvolveSame(w.tests);
    if w.approvals[aid].payload.LaunchPayload? {
      var spec := w.approvals[aid].payload.spec;
      if spec.abTestId < |w.tests| && w.tests[spec.abTestId].status == TestPending {
        var t := w.tests[spec.abTestId];
        assert StudyFits(t);
        ReplacedEvolves(w.tests, spec.abTestId, t.(status := TestDraft));
        ReplacedEvolves(w.tests, spec.abTestId, Launched(t, w.meta.counter + 1, spec));
      }
    }
  }

  lemma RejectEvolves(w: World, user: User, aid: nat, test: Option<nat>, env: Env)
    requires aid < |w.approvals|
    ensures TestsEvolve(w.tests, RejectSpec(w, user, aid, test, env).0.tests)
  {
  }

  lemma TestsEvolveTrans(s: seq<AbTest>, r: seq<AbTest>, q: seq<AbTest>)
    requires TestsEvolve(s, r) && TestsEvolve(r, q)
    ensures TestsEvolve(s, q)
  {
    forall i | 0 <= i < |s| ensures TestEvolves(s[i], q[i]) { assert TestEvolves(s[i], r[i]) && TestEvolves(r[i], q[i]); }
  }

  /** Over any stretch of any run every test evolves. */
  lemma {:induction false} TestsAreMonotone(w: World, acts: seq<Action>, k: nat)
    requires TestsOk(w) && k <= |acts|
    ensures TestsEvolve(After(w, acts[..k]).tests, After(w, acts).tests)
    decreases |acts|
  {
    hide Next, TestsOk;
    if k == |acts| {
      assert acts[..k] == acts;
    } else {
      var front := acts[..|acts| - 1];
      assert front[..k] == acts[..k];
      TestsAreMonotone(w, front, k);
      TestsStayInOrder(w, front);
      StepEvolvesTests(After(w, front), acts[|acts| - 1]);
      TestsEvolveTrans(After(w, acts[..k]).tests, After(w, front).tests, After(w, acts).tests);
    }
  }

  /** An empty system is in order. */
  lemma EmptyIsInOrder(w: World)
    requires w.approvals == [] && w.tests == [] && w.meta.studies == map[] && Numbered(w.meta)
    ensures TestsOk(w) && LiveHeld(w)
  {
  }

  /** What being held is good for: cancelling the test that holds a study stops it. */
  lemma HeldStudyCanBeStopped(w: World, user: User, tid: nat, study: nat, env: Env)
    requires Holds(w, tid, study) && !OutOfScope(user, w.tests[tid].clientId) && w.tests[tid].clientId in w.accounts
    requires env.contextOk && env.stopOk && env.commitOk
    ensures var (v, r) := CancelSpec(w, user, tid, env);
      r.Ok? && !IsLive(v.meta, study) && v.tests[tid].status == Cancelled
  {
    PauseKeepsStudies(StopStudy(w.meta, study), w.tests[tid], env);
  }
}
