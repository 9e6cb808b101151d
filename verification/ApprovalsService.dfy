/** approvals.service.ts: requesting a publish approval, and deciding approvals of every kind. */
module ApprovalsService {
  import opened Core
  import opened PublishPlan
  import opened MetaStore
  import opened Rows
  import opened World
  import opened BundleBuilder

  // ---------- Specification ----------

  function RequestSpec(w: World, user: User, cid: Id, env: Env): (World, Result<nat>) {
    if cid !in w.content.campaigns || OutOfScope(user, w.content.campaigns[cid].clientId) then (w, Err(NotFound))
    else if w.content.campaigns[cid].status == Published then (w, Err(AlreadyPublished))
    else if BuildBundle(w.content, w.accounts, cid).adSets == [] then (w, Err(NoAds))
    else if AccountOf(w, w.content.campaigns[cid].clientId).None? then (w, Err(NoAdAccount))
    else if !env.commitOk then (w, Err(DatabaseFailure))
    else
      var subject := CampaignPublish(cid);
      var payload := PublishPayload(CurrentPlan(w.content, w.accounts, cid));
      (w.(approvals := ExpirePending(w.approvals, subject) + [NewApproval(subject, payload, user.id, env.now)],
          content := WriteStatus(w.content, cid, PendingApproval)),
       Ok(|w.approvals|))
  }

  /** Members other than the user who may approve. */
  function OtherApprovers(members: map<Id, Member>, uid: Id): set<Id> {
    set m | m in members && IsPrivileged(members[m].role) && members[m].userId != uid
  }

  /** The checks every decision passes before its branch. */
  function DecideGuard(w: World, user: User, aid: nat, approve: bool): Result<Approval> {
    if aid >= |w.approvals| then Err(NotFound)
    else
      var a := w.approvals[aid];
      if a.status != PENDING then Err(NotPending)
      else if approve && a.requestedBy == user.id && |OtherApprovers(w.members, user.id)| > 0 then Err(MakerChecker)
      else Ok(a)
  }

  function WithApproval(w: World, aid: nat, a: Approval): World
    requires aid < |w.approvals|
  {
    w.(approvals := w.approvals[aid := a])
  }

  function WithTest(w: World, tid: nat, t: AbTest): World {
    if tid < |w.tests| then w.(tests := w.tests[tid := t]) else w
  }

  function DecideSpec(w: World, user: User, aid: nat, approve: bool, env: Env): (World, Result<Done>) {
    match DecideGuard(w, user, aid, approve)
    case Err(e) => (w, Err(e))
    case Ok(a) =>
      match a.subject
      case CampaignPublish(cid) => DecideCampaignSpec(w, user, aid, cid, approve, env)
      case BudgetOf(cid) => if approve then BudgetSpec(w, user, aid, cid, env) else RejectSpec(w, user, aid, None, env)
      case TestLaunch(tid) =>
        if approve then ApproveLaunchSpec(w, user, aid, tid, env) else RejectSpec(w, user, aid, Some(tid), env)
  }

  /** Two separate row updates: the approval, then the campaign. */
  function DecideCampaignSpec(w: World, user: User, aid: nat, cid: Id, approve: bool, env: Env): (World, Result<Done>)
    requires aid < |w.approvals|
  {
    if !env.commitOk then (w, Err(DatabaseFailure))
    else
      var decided := WithApproval(w, aid, Decided(w.approvals[aid], if approve then APPROVED else REJECTED, user.id, env.now));
      if !env.followUpOk then (decided, Err(DatabaseFailure))
      else if approve then (decided.(content := WriteStatus(w.content, cid, Approved)), Ok(Done))
      else if cid in w.content.campaigns && w.content.campaigns[cid].status == PendingApproval then
        (decided.(content := WriteStatus(w.content, cid, Draft)), Ok(Done))
      else (decided, Ok(Done))
  }

  /** Rejecting a budget change or a launch; a launch's test returns to DRAFT in the same transaction. */
  function RejectSpec(w: World, user: User, aid: nat, test: Option<nat>, env: Env): (World, Result<Done>)
    requires aid < |w.approvals|
  {
    if !env.commitOk then (w, Err(DatabaseFailure))
    else
      var rejected := WithApproval(w, aid, Decided(w.approvals[aid], REJECTED, user.id, env.now));
      if test.Some? && test.value < |w.tests| && w.tests[test.value].status == TestPending then
        (WithTest(rejected, test.value, w.tests[test.value].(status := TestDraft)), Ok(Done))
      else (rejected, Ok(Done))
  }

  function Launched(t: AbTest, study: nat, spec: LaunchSpec): AbTest {
    t.(status := Running, metaTestId := Some(study),
       cellAMetaId := if |spec.cells| > 0 then Some(spec.cells[0].metaEntityId) else None,
       cellBMetaId := if |spec.cells| > 1 then Some(spec.cells[1].metaEntityId) else None)
  }

  function ApproveLaunchSpec(w: World, user: User, aid: nat, tid: nat, env: Env): (World, Result<Done>)
    requires aid < |w.approvals|
  {
    if !w.approvals[aid].payload.LaunchPayload? then (w, Err(NotFound))
    else
      var spec := w.approvals[aid].payload.spec;
      if spec.abTestId >= |w.tests| then (w, Err(NotFound))
      else if w.tests[spec.abTestId].status != TestPending then (w, Err(AbTestStale))
      else if !env.contextOk || !env.callOk then (w, Err(MetaFailure))
      else LaunchOutcome(w, user, aid, spec, env)
  }

  /**
   * The experiment is live on Meta. If recording that fails, it is stopped, and the approval and
   * test are taken out of the launchable state: to DRAFT when the stop worked, else still RUNNING.
   */
  function LaunchOutcome(w: World, user: User, aid: nat, spec: LaunchSpec, env: Env): (World, Result<Done>)
    requires aid < |w.approvals| && spec.abTestId < |w.tests|
  {
    var tid, a := spec.abTestId, w.approvals[aid];
    var study := w.meta.counter + 1;
    var created := w.(meta := AddStudy(w.meta, spec.name, spec.cells), launchedFor := w.launchedFor[study := tid]);
    var running := Launched(w.tests[tid], study, spec);
    if env.commitOk then
      (WithTest(WithApproval(created, aid, Decided(a, CONSUMED, user.id, env.now)), tid, running), Ok(Done))
    else
      var compensated :=
        if env.stopOk || env.stopReached then created.(meta := StopStudy(created.meta, study)) else created;
      if !env.cleanupOk then (compensated, Err(AbLaunchRolledBack))
      else
        (WithTest(WithApproval(compensated, aid, Decided(a, EXPIRED, user.id, env.now)), tid,
                  if env.stopOk then w.tests[tid].(status := TestDraft) else running),
         Err(AbLaunchRolledBack))
  }

  function BudgetSpec(w: World, user: User, aid: nat, cid: Id, env: Env): (World, Result<Done>)
    requires aid < |w.approvals|
  {
    if !w.approvals[aid].payload.BudgetPayload? then (w, Err(NotFound))
    else
      var p := w.approvals[aid].payload;
      if cid !in w.content.campaigns || w.content.campaigns[cid].metaCampaignId.None? then (w, Err(NotPublished))
      else if w.content.campaigns[cid].budgetAmount != Some(p.currentBudget) then (w, Err(BudgetStale))
      else if AccountOf(w, w.content.campaigns[cid].clientId).None? then (w, Err(NoAdAccount))
      else if !env.contextOk || (!env.callOk && !env.callReached) then (w, Err(MetaFailure))
      else
        var sent := w.(meta := SetBudget(w.meta, w.content.campaigns[cid].metaCampaignId.value, p.budgetType, p.newBudget));
        if !env.callOk then (sent, Err(MetaFailure))
        else if !env.commitOk then (sent, Err(DatabaseFailure))
        else
          (WithApproval(sent, aid, Decided(w.approvals[aid], CONSUMED, user.id, env.now))
             .(content := WriteBudget(w.content, cid, p.newBudget)), Ok(Done))
  }

  function WriteBudget(c: Content, cid: Id, amount: int): Content {
    if cid in c.campaigns then c.(campaigns := c.campaigns[cid := c.campaigns[cid].(budgetAmount := Some(amount))]) else c
  }

  // ---------- The service ----------

  method RequestApproval(db: Database, mc: MetaConnector, user: User, cid: Id, env: Env) returns (r: Result<nat>)
    modifies db, mc
    ensures (View(db, mc), r) == RequestSpec(old(View(db, mc)), user, cid, env)
  {
    if cid !in db.content.campaigns { return Err(NotFound); }
    var campaign := db.content.campaigns[cid];
    if OutOfScope(user, campaign.clientId) { return Err(NotFound); }
    if campaign.status == Published { return Err(AlreadyPublished); }
    var bundle := BuildBundle(db.content, db.accounts, cid);
    if |bundle.adSets| == 0 { return Err(NoAds); }
    if bundle.adAccountId.None? { return Err(NoAdAccount); }
    var plan := BuildPublishPlan(bundle);
    if !env.commitOk { return Err(DatabaseFailure); }
    db.approvals := ExpirePending(db.approvals, CampaignPublish(cid));
    var id := |db.approvals|;
    db.approvals := db.approvals + [NewApproval(CampaignPublish(cid), PublishPayload(plan), user.id, env.now)];
    db.content := WriteStatus(db.content, cid, PendingApproval);
    return Ok(id);
  }

  method Decide(db: Database, mc: MetaConnector, user: User, aid: nat, approve: bool, env: Env) returns (r: Result<Done>)
    modifies db, mc
    ensures (View(db, mc), r) == DecideSpec(old(View(db, mc)), user, aid, approve, env)
  {
    if aid >= |db.approvals| { return Err(NotFound); }
    var approval := db.approvals[aid];
    if approval.status != PENDING { return Err(NotPending); }
    if approve && approval.requestedBy == user.id {
      var otherApprovers := OtherApprovers(db.members, user.id);
      if |otherApprovers| > 0 { return Err(MakerChecker); }
    }
    match approval.subject
    case BudgetOf(cid) =>
      r := DecideBudgetChange(db, mc, user, aid, cid, approve, env);
    case TestLaunch(tid) =>
      r := DecideAbTestLaunch(db, mc, user, aid, tid, approve, env);
    case CampaignPublish(cid) =>
      if !env.commitOk { return Err(DatabaseFailure); }
      db.approvals := db.approvals[aid := Decided(approval, if approve then APPROVED else REJECTED, user.id, env.now)];
      if !env.followUpOk { return Err(DatabaseFailure); }
      if approve {
        db.content := WriteStatus(db.content, cid, Approved);
      } else if cid in db.content.campaigns && db.content.campaigns[cid].status == PendingApproval {
        db.content := WriteStatus(db.content, cid, Draft);
      }
      return Ok(Done);
  }

  method DecideAbTestLaunch(db: Database, mc: MetaConnector, user: User, aid: nat, tid: nat, approve: bool, env: Env)
    returns (r: Result<Done>)
    requires aid < |db.approvals|
    modifies db, mc
    ensures (View(db, mc), r) ==
      if approve then ApproveLaunchSpec(old(View(db, mc)), user, aid, tid, env)
      else RejectSpec(old(View(db, mc)), user, aid, Some(tid), env)
  {
    var approval := db.approvals[aid];
    if !approve {
      if !env.commitOk { return Err(DatabaseFailure); }
      db.approvals := db.approvals[aid := Decided(approval, REJECTED, user.id, env.now)];
      if tid < |db.tests| && db.tests[tid].status == TestPending {
        db.tests := db.tests[tid := db.tests[tid].(status := TestDraft)];
      }
      return Ok(Done);
    }
    if !approval.payload.LaunchPayload? { return Err(NotFound); }
    var spec := approval.payload.spec;
    var testId := spec.abTestId;
    if testId >= |db.tests| { return Err(NotFound); }
    var test := db.tests[testId];
    if test.status != TestPending { return Err(AbTestStale); }
    if !env.contextOk { return Err(MetaFailure); }
    if !env.callOk { return Err(MetaFailure); }
    var created := mc.CreateSplitTest(spec.name, spec.cells);
    db.launchedFor := db.launchedFor[created := testId];

    if env.commitOk {
      db.approvals := db.approvals[aid := Decided(approval, CONSUMED, user.id, env.now)];
      db.tests := db.tests[testId := Launched(test, created, spec)];
      return Ok(Done);
    }
    var stopped := false;
    if env.stopOk {
      mc.StopSplitTest(created);
      stopped := true;
    } else if env.stopReached {
      mc.StopSplitTest(created);
    }
    if env.cleanupOk {
      db.approvals := db.approvals[aid := Decided(approval, EXPIRED, user.id, env.now)];
      db.tests := db.tests[testId := if stopped then test.(status := TestDraft) else Launched(test, created, spec)];
    }
    return Err(AbLaunchRolledBack);
  }

  method DecideBudgetChange(db: Database, mc: MetaConnector, user: User, aid: nat, cid: Id, approve: bool, env: Env)
    returns (r: Result<Done>)
    requires aid < |db.approvals|
    modifies db, mc
    ensures (View(db, mc), r) ==
      if approve then BudgetSpec(old(View(db, mc)), user, aid, cid, env)
      else RejectSpec(old(View(db, mc)), user, aid, None, env)
  {
    var approval := db.approvals[aid];
    if !approve {
      if !env.commitOk { return Err(DatabaseFailure); }
      db.approvals := db.approvals[aid := Decided(approval, REJECTED, user.id, env.now)];
      return Ok(Done);
    }
    if !approval.payload.BudgetPayload? { return Err(NotFound); }
    var preview := approval.payload;
    if cid !in db.content.campaigns { return Err(NotPublished); }
    var campaign := db.content.campaigns[cid];
    if campaign.metaCampaignId.None? { return Err(NotPublished); }
    if campaign.budgetAmount != Some(preview.currentBudget) { return Err(BudgetStale); }
    if campaign.clientId !in db.accounts { return Err(NoAdAccount); }
    if !env.contextOk { return Err(MetaFailure); }
    if env.callOk || env.callReached {
      mc.UpdateCampaignBudget(campaign.metaCampaignId.value, preview.budgetType, preview.newBudget);
    }
    if !env.callOk { return Err(MetaFailure); }
    if !env.commitOk { return Err(DatabaseFailure); }
    db.approvals := db.approvals[aid := Decided(approval, CONSUMED, user.id, env.now)];
    db.content := WriteBudget(db.content, cid, preview.newBudget);
    return Ok(Done);
  }
}
