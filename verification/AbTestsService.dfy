/** ab-tests.service.ts: creating, launching, cancelling and reading A/B tests. */
module AbTestsService {
  import opened Core
  import opened PublishPlan
  import opened MetaStore
  import opened Rows
  import opened World
  import opened AbStatistics
  import opened Attribution

  // ---------- Specification ----------

  datatype TestInput = TestInput(name: string, metric: Metric, level: TestLevel, cellAId: Id, cellBId: Id)

  datatype Cell = Cell(id: Id, name: string, metaId: Option<MetaId>)

  /** A variant of the campaign: its display name and Meta id. */
  function ResolveCell(c: Content, cid: Id, level: TestLevel, id: Id): Option<Cell> {
    match level
    case AdLevel =>
      if id in c.ads && c.ads[id].campaignId == cid then
        Some(Cell(id, if c.ads[id].hook.GetOr("") != "" then c.ads[id].hook.value else c.ads[id].name, c.ads[id].metaAdId))
      else None
    case AdSetLevel =>
      if id in c.adSets && c.adSets[id].campaignId == cid then Some(Cell(id, c.adSets[id].name, c.adSets[id].metaAdSetId))
      else None
  }

  predicate IsActiveTest(t: AbTest) { t.status == TestDraft || t.status == TestPending || t.status == Running }

  /** The test is on this campaign and this pair of cells, in either order. */
  predicate IsOnPair(t: AbTest, cid: Id, a: Id, b: Id) {
    t.campaignId == cid && ((t.cellAId == a && t.cellBId == b) || (t.cellAId == b && t.cellBId == a))
  }

  predicate HasDuplicate(tests: seq<AbTest>, cid: Id, a: Id, b: Id) {
    exists i :: 0 <= i < |tests| && IsActiveTest(tests[i]) && IsOnPair(tests[i], cid, a, b)
  }

  function NewTest(clientId: Id, cid: Id, input: TestInput, a: Cell, b: Cell): AbTest {
    AbTest(clientId, cid, input.name, input.metric, input.level, a.id, a.name, b.id, b.name, TestDraft, None, None, None, None, None)
  }

  function CreateTestSpec(w: World, user: User, cid: Id, input: TestInput, env: Env): (World, Result<nat>) {
    if cid !in w.content.campaigns || OutOfScope(user, w.content.campaigns[cid].clientId) then (w, Err(NotFound))
    else
      var a := ResolveCell(w.content, cid, input.level, input.cellAId);
      var b := ResolveCell(w.content, cid, input.level, input.cellBId);
      if a.None? || b.None? then (w, Err(CellNotFound))
      else if HasDuplicate(w.tests, cid, a.value.id, b.value.id) then (w, Err(DuplicateTest))
      else if !env.commitOk then (w, Err(DatabaseFailure))
      else
        (w.(tests := w.tests + [NewTest(w.content.campaigns[cid].clientId, cid, input, a.value, b.value)]), Ok(|w.tests|))
  }

  function GetTest(w: World, user: User, tid: nat): Result<AbTest> {
    if tid >= |w.tests| || OutOfScope(user, w.tests[tid].clientId) then Err(NotFound) else Ok(w.tests[tid])
  }

  /** The split test a launch would ask Meta for, or why the test cannot launch. */
  function LaunchSpecOf(w: World, tid: nat): Result<LaunchSpec>
    requires tid < |w.tests|
  {
    var t := w.tests[tid];
    var account := AccountOf(w, t.clientId);
    if t.status != TestDraft then Err(NotDraft)
    else if account.None? then Err(NoAdAccount)
    else
      var a := ResolveCell(w.content, t.campaignId, t.level, t.cellAId);
      var b := ResolveCell(w.content, t.campaignId, t.level, t.cellBId);
      if a.None? || b.None? then Err(CellNotFound)
      else if a.value.metaId.None? || b.value.metaId.None? then Err(AdNotPublished)
      else if t.metric == CVR && account.value.pixelId.None? then Err(NoPixel)
      else
        Ok(LaunchSpec(tid, account.value.accountId, account.value.connectionId, t.name,
                      if t.metric == CTR then "LINK_CLICKS" else "CONVERSIONS",
                      [CellSpec(a.value.name, a.value.metaId.value), CellSpec(b.value.name, b.value.metaId.value)]))
  }

  function RequestLaunchSpec(w: World, user: User, tid: nat, env: Env): (World, Result<nat>) {
    match GetTest(w, user, tid)
    case Err(e) => (w, Err(e))
    case Ok(t) =>
      match LaunchSpecOf(w, tid)
      case Err(e) => (w, Err(e))
      case Ok(spec) =>
        if !env.commitOk then (w, Err(DatabaseFailure))
        else
          var approval := NewApproval(TestLaunch(tid), LaunchPayload(spec), user.id, env.now);
          (w.(approvals := ExpirePending(w.approvals, TestLaunch(tid)) + [approval],
              tests := w.tests[tid := t.(status := TestPending)]),
           Ok(|w.approvals|))
  }

  function CellKind(level: TestLevel): EntityType { if level == AdSetLevel then AdSetType else AdType }

  /** One of the two pauses of a cancellation; a failing one is only logged. */
  function PauseCell(m: Meta, level: TestLevel, cell: Option<MetaId>, reached: bool): Meta {
    if cell.Some? && reached then SetStatus(m, CellKind(level), cell.value, Paused) else m
  }

  function Reached(env: Env, i: nat): bool { i < |env.pauseOk| && env.pauseOk[i] }

  function PauseCells(m: Meta, t: AbTest, env: Env): Meta {
    PauseCell(PauseCell(m, t.level, t.cellAMetaId, Reached(env, 0)), t.level, t.cellBMetaId, Reached(env, 1))
  }

  function CancelCommit(w: World, tid: nat, env: Env): (World, Result<Done>)
    requires tid < |w.tests|
  {
    if !env.commitOk then (w, Err(DatabaseFailure))
    else
      (w.(tests := w.tests[tid := w.tests[tid].(status := Cancelled)],
          approvals := ExpirePending(w.approvals, TestLaunch(tid))),
       Ok(Done))
  }

  function CancelSpec(w: World, user: User, tid: nat, env: Env): (World, Result<Done>) {
    match GetTest(w, user, tid)
    case Err(e) => (w, Err(e))
    case Ok(t) =>
      if t.status == Cancelled || t.status == Concluded then (w, Err(AbTestTerminal))
      else if t.status == Running && t.metaTestId.Some? then
        if AccountOf(w, t.clientId).None? then (w, Err(NoAdAccount))
        else if !env.contextOk || (!env.stopOk && !env.stopReached) then (w, Err(MetaFailure))
        else
          var stopped := w.(meta := StopStudy(w.meta, t.metaTestId.value));
          if !env.stopOk then (stopped, Err(MetaFailure))
          else CancelCommit(stopped.(meta := PauseCells(stopped.meta, t, env)), tid, env)
      else CancelCommit(w, tid, env)
  }

  predicate HasEnded(m: Meta, study: nat) { study in m.studies && m.studies[study].state == Ended }

  /** `cells` are the live cells Meta reports for the study. */
  function RefreshSpec(w: World, ar: Arith, user: User, tid: nat, cells: seq<LiveCell>, env: Env): (World, Result<AbResult>)
    requires IsArith(ar)
  {
    match GetTest(w, user, tid)
    case Err(e) => (w, Err(e))
    case Ok(t) =>
      if t.metaTestId.None? then (w, Err(NotLaunched))
      else if AccountOf(w, t.clientId).None? then (w, Err(NoAdAccount))
      else if !env.contextOk || !env.callOk then (w, Err(MetaFailure))
      else
        match Attribute(ar, t, cells)
        case Err(e) => (w, Err(e))
        case Ok(result) =>
          if !env.commitOk then (w, Err(DatabaseFailure))
          else
            var status := if HasEnded(w.meta, t.metaTestId.value) then Concluded else t.status;
            (w.(tests := w.tests[tid := t.(result := Some(result), winnerCellId := result.winnerId, status := status)]), Ok(result))
  }

  // ---------- The service ----------

  method FindDuplicate(tests: seq<AbTest>, cid: Id, a: Id, b: Id) returns (found: bool)
    ensures found == HasDuplicate(tests, cid, a, b)
  {
    for i := 0 to |tests|
      invariant forall k :: 0 <= k < i ==> !(IsActiveTest(tests[k]) && IsOnPair(tests[k], cid, a, b))
    {
      if IsActiveTest(tests[i]) && IsOnPair(tests[i], cid, a, b) { return true; }
    }
    return false;
  }

  method Create(db: Database, mc: MetaConnector, user: User, cid: Id, input: TestInput, env: Env) returns (r: Result<nat>)
    modifies db
    ensures (View(db, mc), r) == CreateTestSpec(old(View(db, mc)), user, cid, input, env)
  {
    if cid !in db.content.campaigns { return Err(NotFound); }
    var campaign := db.content.campaigns[cid];
    if OutOfScope(user, campaign.clientId) { return Err(NotFound); }
    var a := ResolveCell(db.content, cid, input.level, input.cellAId);
    var b := ResolveCell(db.content, cid, input.level, input.cellBId);
    if a.None? || b.None? { return Err(CellNotFound); }
    var duplicate := FindDuplicate(db.tests, cid, a.value.id, b.value.id);
    if duplicate { return Err(DuplicateTest); }
    if !env.commitOk { return Err(DatabaseFailure); }
    var id := |db.tests|;
    db.tests := db.tests + [NewTest(campaign.clientId, cid, input, a.value, b.value)];
    return Ok(id);
  }

  method RequestLaunch(db: Database, mc: MetaConnector, user: User, tid: nat, env: Env) returns (r: Result<nat>)
    modifies db
    ensures (View(db, mc), r) == RequestLaunchSpec(old(View(db, mc)), user, tid, env)
  {
    if tid >= |db.tests| { return Err(NotFound); }
    var test := db.tests[tid];
    if OutOfScope(user, test.clientId) { return Err(NotFound); }
    if test.status != TestDraft { return Err(NotDraft); }
    if test.clientId !in db.accounts { return Err(NoAdAccount); }
    var account := db.accounts[test.clientId];
    var a := ResolveCell(db.content, test.campaignId, test.level, test.cellAId);
    var b := ResolveCell(db.content, test.campaignId, test.level, test.cellBId);
    if a.None? || b.None? { return Err(CellNotFound); }
    if a.value.metaId.None? || b.value.metaId.None? { return Err(AdNotPublished); }
    if test.metric == CVR && account.pixelId.None? { return Err(NoPixel); }
    var spec := LaunchSpec(tid, account.accountId, account.connectionId, test.name,
                           if test.metric == CTR then "LINK_CLICKS" else "CONVERSIONS",
                           [CellSpec(a.value.name, a.value.metaId.value), CellSpec(b.value.name, b.value.metaId.value)]);
    if !env.commitOk { return Err(DatabaseFailure); }
    db.approvals := ExpirePending(db.approvals, TestLaunch(tid));
    var id := |db.approvals|;
    db.approvals := db.approvals + [NewApproval(TestLaunch(tid), LaunchPayload(spec), user.id, env.now)];
    db.tests := db.tests[tid := test.(status := TestPending)];
    return Ok(id);
  }

  method Cancel(db: Database, mc: MetaConnector, user: User, tid: nat, env: Env) returns (r: Result<Done>)
    modifies db, mc
    ensures (View(db, mc), r) == CancelSpec(old(View(db, mc)), user, tid, env)
  {
    if tid >= |db.tests| { return Err(NotFound); }
    var test := db.tests[tid];
    if OutOfScope(user, test.clientId) { return Err(NotFound); }
    if test.status == Cancelled || test.status == Concluded { return Err(AbTestTerminal); }
    if test.status == Running && test.metaTestId.Some? {
      if test.clientId !in db.accounts { return Err(NoAdAccount); }
      if !env.contextOk { return Err(MetaFailure); }
      if env.stopOk || env.stopReached { mc.StopSplitTest(test.metaTestId.value); }
      if !env.stopOk { return Err(MetaFailure); }
      PauseBoth(mc, test, env);
    }
    if !env.commitOk { return Err(DatabaseFailure); }
    db.tests := db.tests[tid := test.(status := Cancelled)];
    db.approvals := ExpirePending(db.approvals, TestLaunch(tid));
    return Ok(Done);
  }

  /** The loop over the two launched entities. */
  method PauseBoth(mc: MetaConnector, test: AbTest, env: Env)
    modifies mc
    ensures mc.State() == PauseCells(old(mc.State()), test, env)
  {
    var cells := [test.cellAMetaId, test.cellBMetaId];
    for i := 0 to 2
      invariant mc.State() ==
        if i == 0 then old(mc.State())
        else if i == 1 then PauseCell(old(mc.State()), test.level, test.cellAMetaId, Reached(env, 0))
        else PauseCells(old(mc.State()), test, env)
    {
      if cells[i].Some? && Reached(env, i) {
        mc.PauseEntity(CellKind(test.level), cells[i].value);
      }
    }
  }

  method RefreshResults(db: Database, mc: MetaConnector, ar: Arith, user: User, tid: nat, cells: seq<LiveCell>, env: Env)
    returns (r: Result<AbResult>)
    requires IsArith(ar)
    modifies db
    ensures (View(db, mc), r) == RefreshSpec(old(View(db, mc)), ar, user, tid, cells, env)
  {
    if tid >= |db.tests| { return Err(NotFound); }
    var test := db.tests[tid];
    if OutOfScope(user, test.clientId) { return Err(NotFound); }
    if test.metaTestId.None? { return Err(NotLaunched); }
    if test.clientId !in db.accounts { return Err(NoAdAccount); }
    if !env.contextOk || !env.callOk { return Err(MetaFailure); }
    var concluded := test.metaTestId.value in mc.studies && mc.studies[test.metaTestId.value].state == Ended;
    if |cells| < 2 { return Err(NoCellData); }
    var a := FindByEntity(cells, test.cellAMetaId);
    var b := FindByEntity(cells, test.cellBMetaId);
    if a.None? || b.None? || a.value == b.value { return Err(AbAttributionFailed); }
    var result := EvaluateAbTest(ar, VariantOf(test.metric, cells[a.value], test.cellAId, test.cellALabel),
                                 VariantOf(test.metric, cells[b.value], test.cellBId, test.cellBLabel),
                                 MetricName(test.metric), None);
    if !env.commitOk { return Err(DatabaseFailure); }
    db.tests := db.tests[tid := test.(result := Some(result), winnerCellId := result.winnerId, status := if concluded then Concluded else test.status)];
    return Ok(result);
  }

  // ---------- What a cancellation stops, and what a launch asks for ----------

  /** The cell's pause is made: it was launched with this entity, and the call goes through. */
  predicate PauseMade(t: AbTest, env: Env, id: MetaId) {
    || (t.cellAMetaId == Some(id) && 0 < |env.pauseOk| && env.pauseOk[0])
    || (t.cellBMetaId == Some(id) && 1 < |env.pauseOk| && env.pauseOk[1])
  }

  /** Cancelling a running test pauses exactly the launched entities of its level whose pause is made. */
  lemma CancelPausesCells(w: World, user: User, tid: nat, env: Env)
    requires CancelSpec(w, user, tid, env).1.Ok? && w.tests[tid].status == Running && w.tests[tid].metaTestId.Some?
    ensures var t, v := w.tests[tid], CancelSpec(w, user, tid, env).0;
      && v.meta.entities.Keys == w.meta.entities.Keys
      && forall id :: id in w.meta.entities ==>
           v.meta.entities[id] ==
             if PauseMade(t, env, id) && id.kind == (if t.level == AdSetLevel then AdSetType else AdType)
             then w.meta.entities[id].(status := Paused) else w.meta.entities[id]
  {
    var t, m := w.tests[tid], StopStudy(w.meta, w.tests[tid].metaTestId.value);
    CellsPaused(m, t, env);
  }

  lemma CellsPaused(m: Meta, t: AbTest, env: Env)
    ensures var m' := PauseCells(m, t, env);
      && m'.entities.Keys == m.entities.Keys
      && forall id :: id in m.entities ==>
           m'.entities[id] ==
             if PauseMade(t, env, id) && id.kind == (if t.level == AdSetLevel then AdSetType else AdType)
             then m.entities[id].(status := Paused) else m.entities[id]
  {
  }

  /** The cell is a variant of the campaign, under the label it is shown with: an ad's hook if it has one, else the name. */
  predicate IsLabelled(c: Content, cid: Id, level: TestLevel, id: Id, shown: string) {
    if level == AdLevel then
      && id in c.ads && c.ads[id].campaignId == cid
      && if c.ads[id].hook in {None, Some("")} then shown == c.ads[id].name else Some(shown) == c.ads[id].hook
    else id in c.adSets && c.adSets[id].campaignId == cid && shown == c.adSets[id].name
  }

  /** What the cell was published as. */
  predicate IsPublishedAs(c: Content, level: TestLevel, id: Id, meta: MetaId) {
    if level == AdLevel then id in c.ads && c.ads[id].metaAdId == Some(meta)
    else id in c.adSets && c.adSets[id].metaAdSetId == Some(meta)
  }

  /** A launch asks Meta to compare what the two cells were published as, by conversions or link clicks as the test measures them. */
  lemma LaunchAsksFor(w: World, user: User, tid: nat, env: Env)
    requires RequestLaunchSpec(w, user, tid, env).1.Ok?
    ensures tid < |w.tests| && w.tests[tid].clientId in w.accounts
    ensures var t, v, n := w.tests[tid], RequestLaunchSpec(w, user, tid, env).0, |w.approvals|;
      && |v.approvals| == n + 1 && v.approvals[n].payload.LaunchPayload? && v.approvals[n].requestedBy == user.id
      && var spec, account := v.approvals[n].payload.spec, w.accounts[t.clientId];
      && spec.abTestId == tid && spec.name == t.name && |spec.cells| == 2
      && IsPublishedAs(w.content, t.level, t.cellAId, spec.cells[0].metaEntityId)
      && IsPublishedAs(w.content, t.level, t.cellBId, spec.cells[1].metaEntityId)
      && IsLabelled(w.content, t.campaignId, t.level, t.cellAId, spec.cells[0].name)
      && IsLabelled(w.content, t.campaignId, t.level, t.cellBId, spec.cells[1].name)
      && spec.adAccountId == account.accountId && spec.connectionId == account.connectionId
      && (t.metric == CTR ==> spec.metric == "LINK_CLICKS")
      && (t.metric == CVR ==> spec.metric == "CONVERSIONS" && account.pixelId.Some?)
  {
  }

  /** The cell is a variant of the campaign that is on Meta. */
  predicate IsLiveVariant(c: Content, cid: Id, level: TestLevel, id: Id) {
    if level == AdLevel then id in c.ads && c.ads[id].campaignId == cid && c.ads[id].metaAdId.Some?
    else id in c.adSets && c.adSets[id].campaignId == cid && c.adSets[id].metaAdSetId.Some?
  }

  /** A launch can be requested exactly for a draft whose two cells are on Meta, with an account, and a pixel if conversions are to be counted. */
  lemma LaunchGoesThroughIff(w: World, user: User, tid: nat, env: Env)
    requires tid < |w.tests| && !OutOfScope(user, w.tests[tid].clientId)
    ensures var t := w.tests[tid];
      RequestLaunchSpec(w, user, tid, env).1.Ok? <==>
        && t.status == TestDraft && t.clientId in w.accounts && env.commitOk
        && IsLiveVariant(w.content, t.campaignId, t.level, t.cellAId) && IsLiveVariant(w.content, t.campaignId, t.level, t.cellBId)
        && (t.metric == CVR ==> w.accounts[t.clientId].pixelId.Some?)
  {
  }

  // ---------- What is created, and what blocks it ----------

  /** A new test holds the input, its client and the labels of its cells; it has no trace of a launch. */
  lemma CreatedTestIs(w: World, user: User, cid: Id, input: TestInput, env: Env)
    requires CreateTestSpec(w, user, cid, input, env).1.Ok?
    ensures cid in w.content.campaigns
    ensures var v, n := CreateTestSpec(w, user, cid, input, env).0, |w.tests|;
      && |v.tests| == n + 1 && v == w.(tests := w.tests + [v.tests[n]])
      && var t := v.tests[n];
      && t.clientId == w.content.campaigns[cid].clientId && t.campaignId == cid && t.name == input.name
      && t.metric == input.metric && t.level == input.level && t.status == TestDraft
      && t.cellAId == input.cellAId && IsLabelled(w.content, cid, t.level, t.cellAId, t.cellALabel)
      && t.cellBId == input.cellBId && IsLabelled(w.content, cid, t.level, t.cellBId, t.cellBLabel)
      && t.metaTestId == None && t.cellAMetaId == None && t.cellBMetaId == None && t.winnerCellId == None && t.result == None
  {
    hide HasDuplicate;
  }

  /** Past its other checks a test is refused exactly when an unfinished test of the campaign is on the same two cells. */
  lemma DuplicateIff(w: World, user: User, cid: Id, input: TestInput, env: Env)
    requires CreateTestSpec(w, user, cid, input, env).1 !in {Err(NotFound), Err(CellNotFound)}
    ensures CreateTestSpec(w, user, cid, input, env).1 == Err(DuplicateTest) <==>
      exists i :: 0 <= i < |w.tests| && w.tests[i].status !in {Concluded, Cancelled} && w.tests[i].campaignId == cid
        && {w.tests[i].cellAId, w.tests[i].cellBId} == {input.cellAId, input.cellBId}
  {
    hide NewTest;
    forall i | 0 <= i < |w.tests|
      ensures IsOnPair(w.tests[i], cid, input.cellAId, input.cellBId) <==>
        w.tests[i].campaignId == cid && {w.tests[i].cellAId, w.tests[i].cellBId} == {input.cellAId, input.cellBId}
    {
      SamePair(w.tests[i].cellAId, w.tests[i].cellBId, input.cellAId, input.cellBId);
    }
  }

  lemma SamePair(a: Id, b: Id, c: Id, d: Id)
    ensures {a, b} == {c, d} <==> (a == c && b == d) || (a == d && b == c)
  {
    if {a, b} == {c, d} { assert a in {c, d} && b in {c, d} && c in {a, b} && d in {a, b}; }
  }

  /**
   * A refresh stores the result and its winner in its own test, and finishes the test exactly when its
   * study has run to its end on Meta; a study that was only stopped does not.
   */
  lemma RefreshRecords(w: World, ar: Arith, user: User, tid: nat, cells: seq<LiveCell>, env: Env)
    requires IsArith(ar) && RefreshSpec(w, ar, user, tid, cells, env).1.Ok?
    ensures tid < |w.tests| && w.tests[tid].metaTestId.Some?
    ensures var (v, r) := RefreshSpec(w, ar, user, tid, cells, env);
      var t, u, study := w.tests[tid], v.tests[tid], w.tests[tid].metaTestId.value;
      && Attribute(ar, t, cells) == r && u.result == Some(r.value) && u.winnerCellId == r.value.winnerId
      && (study in w.meta.studies && w.meta.studies[study].state == Ended ==> u.status == Concluded)
      && (study !in w.meta.studies || w.meta.studies[study].state != Ended ==> u.status == t.status)
      && u == t.(result := u.result, winnerCellId := u.winnerCellId, status := u.status) && v == w.(tests := w.tests[tid := u])
  {
    hide Attribute;
  }

  /** Any launched test can be refreshed, finished or not, while the client has an account and Meta reports both of its cells. */
  lemma RefreshGoesThroughIff(w: World, ar: Arith, user: User, tid: nat, cells: seq<LiveCell>, env: Env)
    requires IsArith(ar) && tid < |w.tests| && !OutOfScope(user, w.tests[tid].clientId)
    ensures var t := w.tests[tid];
      RefreshSpec(w, ar, user, tid, cells, env).1.Ok? <==>
        && t.metaTestId.Some? && t.clientId in w.accounts && env.contextOk && env.callOk && env.commitOk
        && |cells| >= 2 && Reports(cells, t.cellAMetaId) && Reports(cells, t.cellBMetaId) && t.cellAMetaId != t.cellBMetaId
  {
    hide Attribute, Reports, IsArith;
    AttributesIff(ar, w.tests[tid], cells);
  }
}
