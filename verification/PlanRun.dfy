/**
 * publish.service.ts, the loop over the plan: an interpreter that runs the steps against Meta,
 * threading `idMap` from local ids to Meta ids and writing each new id back to its row.
 */
module PlanRun {
  import opened Core
  import opened PublishPlan
  import opened MetaStore
  import opened Rows

  /** State of the loop: Meta, idMap and the tables it writes. */
  datatype Run = Run(meta: Meta, idMap: map<string, MetaId>, content: Content)

  /** The campaign being published and the selected ad account. */
  datatype Job = Job(campaignId: Id, accountId: Id)

  function CreativeKey(ref: Id): string { "creative:" + ref }

  function Lookup(idMap: map<string, MetaId>, key: string): Option<MetaId> {
    if key in idMap then Some(idMap[key]) else None
  }

  /** The ad's ad set and creative, as its row names them, translated through idMap. */
  function AdSetOf(s: Run, aid: Id): Option<MetaId> {
    if aid in s.content.ads && s.content.ads[aid].adSetId.Some? then Lookup(s.idMap, s.content.ads[aid].adSetId.value)
    else None
  }

  function CreativeOf(s: Run, aid: Id): Option<MetaId> {
    if aid in s.content.ads && s.content.ads[aid].creativeId.Some? then
      Lookup(s.idMap, CreativeKey(s.content.ads[aid].creativeId.value))
    else None
  }

  /** The Meta call of one step. */
  function Call(s: Run, job: Job, step: Step): Meta {
    match step
    case CreateCampaign(_, spec, _) => Add(s.meta, CampaignType, CampaignEntity(spec, Paused))
    case CreateAdSet(_, spec, _) =>
      Add(s.meta, AdSetType, AdSetEntity(spec, Lookup(s.idMap, job.campaignId), Paused))
    case CreateCreative(_, spec, _) => Add(s.meta, CreativeType, CreativeEntity(spec))
    case CreateAd(_, spec, aid) => Add(s.meta, AdType, AdEntity(spec.name, AdSetOf(s, aid), CreativeOf(s, aid), Paused))
    case Activate(_, kind, id) =>
      if id in s.idMap then SetStatus(s.meta, kind, s.idMap[id], Active) else s.meta
  }

  /** What idMap remembers of a successful call. */
  function Remember(s: Run, step: Step): map<string, MetaId> {
    match step
    case CreateCampaign(_, _, id) => s.idMap[id := NextId(s.meta, CampaignType)]
    case CreateAdSet(_, _, id) => s.idMap[id := NextId(s.meta, AdSetType)]
    case CreateCreative(_, _, ref) => s.idMap[CreativeKey(ref) := NextId(s.meta, CreativeType)]
    case CreateAd(_, _, id) => s.idMap[id := NextId(s.meta, AdType)]
    case Activate(_, _, _) => s.idMap
  }

  /** The row write after a successful call. */
  function WriteBack(s: Run, job: Job, step: Step): Content {
    match step
    case CreateCampaign(_, _, _) =>
      WriteCampaignMeta(s.content, job.campaignId, NextId(s.meta, CampaignType), job.accountId)
    case CreateAdSet(_, _, id) => WriteAdSetMeta(s.content, id, NextId(s.meta, AdSetType))
    case CreateCreative(_, _, ref) => WriteCreativeMeta(s.content, ref, NextId(s.meta, CreativeType))
    case CreateAd(_, _, id) => WriteAdMeta(s.content, id, NextId(s.meta, AdType))
    case Activate(_, _, _) => s.content
  }

  function RunStep(s: Run, job: Job, step: Step): Run {
    Run(Call(s, job, step), Remember(s, step), WriteBack(s, job, step))
  }

  /** A fault-free run of the steps. */
  function RunSteps(s: Run, job: Job, plan: Plan): Run
    decreases |plan|
  {
    if plan == [] then s else RunSteps(RunStep(s, job, plan[0]), job, plan[1..])
  }

  // ---------- Faults ----------

  /**
   * Where a run is cut short: the connector call of step `at` throws (having reached Meta or
   * not), or the row write after it throws. Activations write no row.
   */
  datatype Fault = NoFault | CallFails(at: nat, reachedMeta: bool) | RowFails(at: nat)

  predicate Hits(f: Fault, s: Run, step: Step) {
    match f
    case NoFault => false
    case CallFails(at, _) => at == 0 && (step.Activate? ==> step.localId in s.idMap)
    case RowFails(at) => at == 0 && !step.Activate?
  }

  function Later(f: Fault): Fault {
    match f
    case NoFault => NoFault
    case CallFails(at, reached) => if at == 0 then NoFault else CallFails(at - 1, reached)
    case RowFails(at) => if at == 0 then NoFault else RowFails(at - 1)
  }

  /** The state a faulted step leaves behind. */
  function Broken(s: Run, job: Job, step: Step, f: Fault): Run {
    match f
    case CallFails(_, reached) => if reached then s.(meta := Call(s, job, step)) else s
    case _ => Run(Call(s, job, step), Remember(s, step), s.content)
  }

  datatype Outcome = Outcome(run: Run, completed: bool)

  /** The loop with its early exit: runs until the end of the plan or the fault. */
  function Attempt(s: Run, job: Job, plan: Plan, f: Fault): Outcome
    decreases |plan|
  {
    if plan == [] then Outcome(s, true)
    else if Hits(f, s, plan[0]) then Outcome(Broken(s, job, plan[0], f), false)
    else Attempt(RunStep(s, job, plan[0]), job, plan[1..], Later(f))
  }

  /** The fault hits: the run reaches its step, and the step makes the call, or writes the row, that fails. */
  predicate Stops(s: Run, job: Job, plan: Plan, f: Fault) {
    && f != NoFault && f.at < |plan|
    && match f
       case CallFails(at, _) => plan[at].Activate? ==> plan[at].localId in RunSteps(s, job, plan[..at]).idMap
       case RowFails(at) => !plan[at].Activate?
  }

  /** How many steps have taken effect on Meta when the fault hits. */
  function Effective(f: Fault): nat
    requires f != NoFault
  {
    if f.CallFails? && !f.reachedMeta then f.at else f.at + 1
  }

  /**
   * A run stops early exactly when its fault hits, and has then done to Meta exactly what the steps
   * before the fault do, with the faulted one if its call reached Meta.
   */
  lemma {:induction false} AttemptIsPrefix(s: Run, job: Job, plan: Plan, f: Fault) returns (j: nat)
    ensures Attempt(s, job, plan, f).completed <==> !Stops(s, job, plan, f)
    ensures j == if Stops(s, job, plan, f) then Effective(f) else |plan|
    ensures j <= |plan| && Attempt(s, job, plan, f).run.meta == RunSteps(s, job, plan[..j]).meta
    ensures Attempt(s, job, plan, f).completed ==> Attempt(s, job, plan, f).run == RunSteps(s, job, plan)
    decreases |plan|
  {
    j := 0;
    if plan != [] {
      var step, rest := plan[0], plan[1..];
      if Hits(f, s, step) {
        assert plan[..0] == [];
        assert plan[..1] == [step];
        j := Effective(f);
      } else {
        var k := AttemptIsPrefix(RunStep(s, job, step), job, rest, Later(f));
        StopsLater(s, job, plan, f);
        j := k + 1;
        assert plan[..j][0] == step && plan[..j][1..] == rest[..k];
      }
    }
  }

  /** A fault that does not hit the first step hits the plan when it hits the rest. */
  lemma StopsLater(s: Run, job: Job, plan: Plan, f: Fault)
    requires plan != [] && !Hits(f, s, plan[0])
    ensures Stops(s, job, plan, f) <==> Stops(RunStep(s, job, plan[0]), job, plan[1..], Later(f))
  {
    if f != NoFault {
      if f.at == 0 {
        assert plan[..0] == [];
      } else if f.at < |plan| {
        assert plan[..f.at][0] == plan[0] && plan[..f.at][1..] == plan[1..][..f.at - 1];
      }
    }
  }

  lemma {:induction false} RunAppend(s: Run, job: Job, p: Plan, q: Plan)
    ensures RunSteps(s, job, p + q) == RunSteps(RunSteps(s, job, p), job, q)
    decreases |p|
  {
    if p == [] {
      assert p + q == q;
    } else {
      assert (p + q)[0] == p[0] && (p + q)[1..] == p[1..] + q;
      RunAppend(RunStep(s, job, p[0]), job, p[1..], q);
    }
  }

  // ---------- What a run leaves alone in the campaigns ----------

  /** The same campaigns, with nothing but their Meta id and ad account perhaps rewritten. */
  ghost predicate SameRows(c: Content, d: Content) {
    && d.campaigns.Keys == c.campaigns.Keys
    && forall id :: id in c.campaigns ==>
         d.campaigns[id] == c.campaigns[id].(metaCampaignId := d.campaigns[id].metaCampaignId, adAccountId := d.campaigns[id].adAccountId)
  }

  lemma {:induction false} AttemptKeepsRows(s: Run, job: Job, plan: Plan, f: Fault)
    ensures SameRows(s.content, Attempt(s, job, plan, f).run.content)
    decreases |plan|
  {
    if plan != [] && !Hits(f, s, plan[0]) {
      assert SameRows(s.content, WriteBack(s, job, plan[0]));
      AttemptKeepsRows(RunStep(s, job, plan[0]), job, plan[1..], Later(f));
    }
  }
}
