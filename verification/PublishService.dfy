/** publish.service.ts: the only path from a local draft to live Meta entities, and pausing. */
module PublishService {
  import opened Core
  import opened PublishPlan
  import opened MetaStore
  import opened Rows
  import opened PlanRun
  import opened PublishSafety
  import opened World
  import opened BundleBuilder

  // ---------- Specification ----------

  predicate IsApprovedPublish(a: Approval, cid: Id) { a.subject == CampaignPublish(cid) && a.status == APPROVED }

  /** The APPROVED publish approval of the campaign that was decided last. */
  function LatestApproved(approvals: seq<Approval>, cid: Id): (r: Option<nat>)
    ensures r.Some? ==> r.value < |approvals| && IsApprovedPublish(approvals[r.value], cid)
    ensures forall i :: 0 <= i < |approvals| && IsApprovedPublish(approvals[i], cid) ==>
      r.Some? && approvals[i].decidedAt <= approvals[r.value].decidedAt
  {
    if approvals == [] then None
    else
      var last := |approvals| - 1;
      var best := LatestApproved(approvals[..last], cid);
      if IsApprovedPublish(approvals[last], cid) && (best.None? || approvals[best.value].decidedAt < approvals[last].decidedAt)
      then Some(last) else best
  }

  /** The checks of a publish, in order; on success the approval to consume. */
  function PublishGuard(w: World, cid: Id, env: Env): Result<nat> {
    if cid !in w.content.campaigns then Err(NotFound)
    else if w.content.campaigns[cid].status == Published then Err(AlreadyPublished)
    else
      var found := LatestApproved(w.approvals, cid);
      if found.None? then Err(NoApproval)
      else if w.approvals[found.value].expiresAt < env.now then Err(ApprovalExpired)
      else if HashOf(PublishPayload(CurrentPlan(w.content, w.accounts, cid))) != w.approvals[found.value].payloadHash
      then Err(ApprovalStale)
      else if AccountOf(w, w.content.campaigns[cid].clientId).None? then Err(NoAdAccount)
      else Ok(found.value)
  }

  /** The approval is consumed and the campaign marked in one transaction. */
  function Consume(w: World, cid: Id, a: nat): World
    requires a < |w.approvals|
  {
    w.(approvals := w.approvals[a := w.approvals[a].(status := CONSUMED)],
       content := WriteStatus(w.content, cid, Publishing))
  }

  function Finish(w: World, cid: Id, end: Outcome, env: Env): World {
    var ran := w.(meta := end.run.meta, content := end.run.content);
    if end.completed && env.finishOk then ran.(content := WriteStatus(ran.content, cid, Published))
    else if env.errorRowOk then ran.(content := WriteStatus(ran.content, cid, Failed))
    else ran
  }

  function RunPublish(w: World, cid: Id, plan: Plan, env: Env): Outcome
    requires cid in w.content.campaigns && AccountOf(w, w.content.campaigns[cid].clientId).Some?
  {
    Attempt(Start(w.meta, w.content), Job(cid, AccountOf(w, w.content.campaigns[cid].clientId).value.id), plan, env.fault)
  }

  function PublishSpec(w: World, cid: Id, env: Env): (World, Result<Done>) {
    match PublishGuard(w, cid, env)
    case Err(e) => (w, Err(e))
    case Ok(a) =>
      if !env.commitOk then (w, Err(DatabaseFailure))
      else
        var consumed := Consume(w, cid, a);
        if !env.contextOk then (consumed, Err(MetaFailure))
        else
          var end := RunPublish(consumed, cid, CurrentPlan(w.content, w.accounts, cid), env);
          (Finish(consumed, cid, end, env), if end.completed && env.finishOk then Ok(Done) else Err(MetaFailure))
  }

  function PauseSpec(w: World, cid: Id, env: Env): (World, Result<Done>) {
    if cid !in w.content.campaigns then (w, Err(NotFound))
    else
      var row := w.content.campaigns[cid];
      if row.metaCampaignId.None? then (w, Err(NotPublished))
      else if AccountOf(w, row.clientId).None? then (w, Err(NoAdAccount))
      else if !env.contextOk || (!env.callOk && !env.callReached) then (w, Err(MetaFailure))
      else
        var paused := w.(meta := SetStatus(w.meta, CampaignType, row.metaCampaignId.value, Paused));
        if !env.callOk then (paused, Err(MetaFailure))
        else if !env.commitOk then (paused, Err(DatabaseFailure))
        else (paused.(content := WriteStatus(w.content, cid, OnHold)), Ok(Done))
  }

  // ---------- The service ----------

  method FindApproved(db: Database, cid: Id) returns (found: Option<nat>)
    ensures found == LatestApproved(db.approvals, cid)
  {
    found := None;
    for i := 0 to |db.approvals|
      invariant found == LatestApproved(db.approvals[..i], cid)
    {
      var a := db.approvals[i];
      assert db.approvals[..i + 1][..i] == db.approvals[..i];
      if a.subject == CampaignPublish(cid) && a.status == APPROVED {
        if found.None? || db.approvals[found.value].decidedAt < a.decidedAt {
          found := Some(i);
        }
      }
    }
    assert db.approvals[..|db.approvals|] == db.approvals;
  }

  /** One step of the plan; `ok` is false when the environment cuts the run short here. */
  method ExecuteStep(db: Database, mc: MetaConnector, job: Job, step: Step, idMap: map<string, MetaId>, f: Fault)
    returns (idMap': map<string, MetaId>, ok: bool)
    modifies db`content, mc
    ensures var s := Run(old(mc.State()), idMap, old(db.content));
      if Hits(f, s, step) then !ok && Run(mc.State(), idMap', db.content) == Broken(s, job, step, f)
      else ok && Run(mc.State(), idMap', db.content) == RunStep(s, job, step)
  {
    var callFails := f.CallFails? && f.at == 0;
    var silent := callFails && !f.reachedMeta;
    var rowFails := f.RowFails? && f.at == 0;
    idMap', ok := idMap, !callFails && !rowFails;
    match step
    case CreateCampaign(_, spec, localId) =>
      if !silent {
        var id := mc.CreateCampaign(spec);
        if !callFails { idMap' := idMap[localId := id]; }
        if ok { db.content := WriteCampaignMeta(db.content, job.campaignId, id, job.accountId); }
      }
    case CreateAdSet(_, spec, localId) =>
      if !silent {
        var id := mc.CreateAdSet(spec, Lookup(idMap, job.campaignId));
        if !callFails { idMap' := idMap[localId := id]; }
        if ok { db.content := WriteAdSetMeta(db.content, localId, id); }
      }
    case CreateCreative(_, spec, ref) =>
      if !silent {
        var id := mc.CreateCreative(spec);
        if !callFails { idMap' := idMap[CreativeKey(ref) := id]; }
        if ok { db.content := WriteCreativeMeta(db.content, ref, id); }
      }
    case CreateAd(_, spec, localId) =>
      var adSetMetaId, creativeMetaId := None, None;
      if localId in db.content.ads {
        var record := db.content.ads[localId];
        if record.adSetId.Some? { adSetMetaId := Lookup(idMap, record.adSetId.value); }
        if record.creativeId.Some? { creativeMetaId := Lookup(idMap, CreativeKey(record.creativeId.value)); }
      }
      if !silent {
        var id := mc.CreateAd(spec.name, adSetMetaId, creativeMetaId);
        if !callFails { idMap' := idMap[localId := id]; }
        if ok { db.content := WriteAdMeta(db.content, localId, id); }
      }
    case Activate(_, kind, localId) =>
      ok := true;
      if localId in idMap {
        ok := !callFails;
        if !silent { mc.ActivateEntity(kind, idMap[localId]); }
      }
  }

  /** The loop over the plan inside the try block. */
  method RunLoop(db: Database, mc: MetaConnector, job: Job, plan: Plan, fault: Fault) returns (completed: bool)
    modifies db`content, mc
    ensures var end := Attempt(Start(old(mc.State()), old(db.content)), job, plan, fault);
      completed == end.completed && mc.State() == end.run.meta && db.content == end.run.content
  {
    ghost var end := Attempt(Start(mc.State(), db.content), job, plan, fault);
    var idMap: map<string, MetaId> := map[];
    var f := fault;
    completed := true;
    var i := 0;
    assert plan[0..] == plan;
    while i < |plan|
      invariant 0 <= i <= |plan|
      invariant Attempt(Run(mc.State(), idMap, db.content), job, plan[i..], f) == end
    {
      hide RunStep, Broken;
      assert plan[i..][0] == plan[i] && plan[i..][1..] == plan[i + 1..];
      var ok;
      idMap, ok := ExecuteStep(db, mc, job, plan[i], idMap, f);
      if !ok { return false; }
      f := Later(f);
      i := i + 1;
    }
  }

  method Publish(db: Database, mc: MetaConnector, cid: Id, env: Env) returns (r: Result<Done>)
    modifies db, mc
    ensures (View(db, mc), r) == PublishSpec(old(View(db, mc)), cid, env)
  {
    hide Attempt, PlanOf, BuildBundle, LatestApproved, WriteStatus;
    if cid !in db.content.campaigns { return Err(NotFound); }
    var campaign := db.content.campaigns[cid];
    if campaign.status == Published { return Err(AlreadyPublished); }
    var found := FindApproved(db, cid);
    if found.None? { return Err(NoApproval); }
    var a := found.value;
    assert a < |db.approvals| by { assert LatestApproved(db.approvals, cid) == Some(a); }
    if db.approvals[a].expiresAt < env.now { return Err(ApprovalExpired); }
    var bundle := BuildBundle(db.content, db.accounts, cid);
    var plan := BuildPublishPlan(bundle);
    if HashOf(PublishPayload(plan)) != db.approvals[a].payloadHash { return Err(ApprovalStale); }
    if campaign.clientId !in db.accounts { return Err(NoAdAccount); }
    var account := db.accounts[campaign.clientId];
    if !env.commitOk { return Err(DatabaseFailure); }
    db.approvals := db.approvals[a := db.approvals[a].(status := CONSUMED)];
    db.content := WriteStatus(db.content, cid, Publishing);
    StatusKeepsClient(old(db.content), cid, Publishing);
    if !env.contextOk { return Err(MetaFailure); }
    var completed := RunLoop(db, mc, Job(cid, account.id), plan, env.fault);
    if completed && env.finishOk {
      db.content := WriteStatus(db.content, cid, Published);
      return Ok(Done);
    }
    if env.errorRowOk {
      db.content := WriteStatus(db.content, cid, Failed);
    }
    return Err(MetaFailure);
  }

  lemma StatusKeepsClient(c: Content, cid: Id, status: CampaignStatus)
    requires cid in c.campaigns
    ensures cid in WriteStatus(c, cid, status).campaigns
    ensures WriteStatus(c, cid, status).campaigns[cid] == c.campaigns[cid].(status := status)
  {
  }

  method Pause(db: Database, mc: MetaConnector, cid: Id, env: Env) returns (r: Result<Done>)
    modifies db, mc
    ensures (View(db, mc), r) == PauseSpec(old(View(db, mc)), cid, env)
  {
    if cid !in db.content.campaigns { return Err(NotFound); }
    var campaign := db.content.campaigns[cid];
    if campaign.metaCampaignId.None? { return Err(NotPublished); }
    if campaign.clientId !in db.accounts { return Err(NoAdAccount); }
    if !env.contextOk { return Err(MetaFailure); }
    if env.callOk || env.callReached {
      mc.PauseEntity(CampaignType, campaign.metaCampaignId.value);
    }
    if !env.callOk { return Err(MetaFailure); }
    if !env.commitOk { return Err(DatabaseFailure); }
    db.content := WriteStatus(db.content, cid, OnHold);
    return Ok(Done);
  }
}
