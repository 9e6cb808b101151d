/**
 * The state of one organization: its tables, and Meta beside them. `World` is the value the
 * specifications speak about; `Database` is the object whose tables the services update.
 */
module World {
  import opened Core
  import opened PublishPlan
  import opened MetaStore
  import opened Rows
  import opened PlanRun
  import opened AbStatistics

  datatype Role = Admin | AgencyOwner | AccountManager | ClientViewer

  predicate IsPrivileged(r: Role) { r == Admin || r == AgencyOwner }

  datatype Member = Member(userId: Id, role: Role, clientScope: seq<Id>)

  /** The caller of an endpoint. */
  datatype User = User(id: Id, role: Role, clientScope: seq<Id>)

  predicate OutOfScope(u: User, clientId: Id) {
    u.role == ClientViewer && u.clientScope != [] && clientId !in u.clientScope
  }

  // ---------- Approvals ----------

  datatype ApprovalStatus = PENDING | APPROVED | REJECTED | EXPIRED | CONSUMED

  /** entityType and entityId of an approval. */
  datatype Subject = CampaignPublish(cid: Id) | BudgetOf(campaign: Id) | TestLaunch(tid: nat)

  datatype LaunchSpec = LaunchSpec(
    abTestId: nat, adAccountId: string, connectionId: Id, name: string, metric: string, cells: seq<CellSpec>)

  datatype Payload =
    | PublishPayload(plan: Plan)
    | LaunchPayload(spec: LaunchSpec)
    | BudgetPayload(metaCampaignId: MetaId, budgetType: BudgetType, currentBudget: int, newBudget: int)

  /** hashJson: taken to be injective, so a hash is its payload under a seal. */
  datatype Hash = HashOf(payload: Payload)

  /** Approvals are never deleted; an approval's id is its place in the table. */
  datatype Approval = Approval(
    subject: Subject,
    payload: Payload,
    payloadHash: Hash,
    status: ApprovalStatus,
    requestedBy: Id,
    decidedBy: Option<Id>,
    decidedAt: nat,
    expiresAt: nat)

  const EXPIRY: nat := 72 * 3600 * 1000

  function NewApproval(subject: Subject, payload: Payload, who: Id, now: nat): Approval {
    Approval(subject, payload, HashOf(payload), PENDING, who, None, 0, now + EXPIRY)
  }

  /** updateMany: nothing of the subject is PENDING afterwards; what was is EXPIRED, all else as before. */
  function ExpirePending(approvals: seq<Approval>, subject: Subject): (r: seq<Approval>)
    ensures |r| == |approvals|
    ensures forall i :: 0 <= i < |r| ==> !(r[i].subject == subject && r[i].status == PENDING)
    ensures forall i :: 0 <= i < |r| ==>
      r[i] == approvals[i]
      || (approvals[i].subject == subject && approvals[i].status == PENDING && r[i] == approvals[i].(status := EXPIRED))
  {
    seq(|approvals|, i requires 0 <= i < |approvals| =>
      if approvals[i].subject == subject && approvals[i].status == PENDING
      then approvals[i].(status := EXPIRED) else approvals[i])
  }

  function Decided(a: Approval, status: ApprovalStatus, who: Id, now: nat): Approval {
    a.(status := status, decidedBy := Some(who), decidedAt := now)
  }

  // ---------- A/B tests ----------

  datatype TestStatus = TestDraft | TestPending | Running | Concluded | Cancelled
  datatype TestLevel = AdLevel | AdSetLevel
  datatype Metric = CVR | CTR

  /** A/B tests are never deleted either; a test's id is its place in the table. */
  datatype AbTest = AbTest(
    clientId: Id,
    campaignId: Id,
    name: string,
    metric: Metric,
    level: TestLevel,
    cellAId: Id,
    cellALabel: string,
    cellBId: Id,
    cellBLabel: string,
    status: TestStatus,
    metaTestId: Option<nat>,
    cellAMetaId: Option<MetaId>,
    cellBMetaId: Option<MetaId>,
    winnerCellId: Option<Id>,
    result: Option<AbResult>)

  // ---------- The rest ----------

  /** The selected ad account of a client, with the first page and pixel of its connection. */
  datatype Account = Account(id: Id, accountId: string, connectionId: Id, pageId: Option<string>, pixelId: Option<string>)

  datatype RecommendationType = KillAd | ScaleBudget | ReduceBudget | RefreshCreative | OtherAdvice
  datatype RecommendationStatus = New | Acknowledged | Applied | Dismissed
  datatype Recommendation = Recommendation(kind: RecommendationType, campaignId: Option<Id>, status: RecommendationStatus)

  /** `launchedFor` is history: which test each study was created for. */
  datatype World = World(
    content: Content,
    accounts: map<Id, Account>,
    approvals: seq<Approval>,
    tests: seq<AbTest>,
    users: map<string, Id>,  // by email, over all organizations
    members: map<Id, Member>,
    recs: map<Id, Recommendation>,
    meta: Meta,
    launchedFor: map<nat, nat>)

  /**
   * What the surroundings of one request do: the clock, and which connector calls and
   * transactions succeed. `Reached` says whether a failing call still took effect on Meta.
   */
  datatype Env = Env(
    now: nat,
    commitOk: bool,      // the main transaction
    followUpOk: bool,    // the second of two separate row updates
    contextOk: bool,     // building the connector context
    callOk: bool,        // the main connector call
    callReached: bool,
    stopOk: bool,        // stopSplitTest
    stopReached: bool,
    cleanupOk: bool,     // the compensation's own transaction
    pauseOk: seq<bool>,  // the two pauses of a cancellation
    fault: Fault,        // where the publish loop is cut short
    finishOk: bool,      // the final campaign update of a publish
    errorRowOk: bool)    // the ERROR update in its catch block

  class Database {
    var content: Content
    var accounts: map<Id, Account>
    var approvals: seq<Approval>
    var tests: seq<AbTest>
    var users: map<string, Id>
    var members: map<Id, Member>
    var recs: map<Id, Recommendation>
    ghost var launchedFor: map<nat, nat>
  }

  ghost function View(db: Database, mc: MetaConnector): World
    reads db, mc
  {
    World(db.content, db.accounts, db.approvals, db.tests, db.users, db.members, db.recs, mc.State(), db.launchedFor)
  }

  function AccountOf(w: World, clientId: Id): Option<Account> {
    if clientId in w.accounts then Some(w.accounts[clientId]) else None
  }
}
