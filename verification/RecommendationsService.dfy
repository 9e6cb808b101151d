/** recommendations.service.ts: a budget recommendation becomes a request for a budget change. */
module RecommendationsService {
  import opened Core
  import opened MetaStore
  import opened Rows
  import opened World

  // ---------- Specification ----------

  predicate IsBudgetStep(kind: RecommendationType) { kind == ScaleBudget || kind == ReduceBudget }

  /** Math.round(budget * (1 + step)) for steps of +20% and -20%, in exact arithmetic. */
  function Stepped(kind: RecommendationType, budget: int): int {
    if kind == ScaleBudget then (12 * budget + 5) / 10 else (8 * budget + 5) / 10
  }

  function ChangeOf(kind: RecommendationType, row: Campaign): Payload
    requires row.metaCampaignId.Some? && row.budgetAmount.Some?
  {
    BudgetPayload(row.metaCampaignId.value, row.budgetType, row.budgetAmount.value, Stepped(kind, row.budgetAmount.value))
  }

  function ApplySpec(w: World, user: User, rid: Id, env: Env): (World, Result<nat>) {
    if rid !in w.recs then (w, Err(NotFound))
    else
      var rec := w.recs[rid];
      if rec.status != New then (w, Err(AlreadyHandled))
      else if !IsBudgetStep(rec.kind) then (w, Err(NotApplicable))
      else if rec.campaignId.None? then (w, Err(NoCampaign))
      else
        var cid := rec.campaignId.value;
        if cid !in w.content.campaigns || w.content.campaigns[cid].metaCampaignId.None? then (w, Err(NotPublished))
        else if w.content.campaigns[cid].budgetAmount.GetOr(0) == 0 then (w, Err(NoBudget))
        else if !env.commitOk then (w, Err(DatabaseFailure))
        else
          var payload := ChangeOf(rec.kind, w.content.campaigns[cid]);
          (w.(approvals := w.approvals + [NewApproval(BudgetOf(cid), payload, user.id, env.now)],
              recs := w.recs[rid := rec.(status := Acknowledged)]),
           Ok(|w.approvals|))
  }

  // ---------- The service ----------

  method Apply(db: Database, mc: MetaConnector, user: User, rid: Id, env: Env) returns (r: Result<nat>)
    modifies db
    ensures (View(db, mc), r) == ApplySpec(old(View(db, mc)), user, rid, env)
  {
    if rid !in db.recs { return Err(NotFound); }
    var rec := db.recs[rid];
    if rec.status != New { return Err(AlreadyHandled); }
    if rec.kind != ScaleBudget && rec.kind != ReduceBudget { return Err(NotApplicable); }
    if rec.campaignId.None? { return Err(NoCampaign); }
    var cid := rec.campaignId.value;
    if cid !in db.content.campaigns { return Err(NotPublished); }
    var campaign := db.content.campaigns[cid];
    if campaign.metaCampaignId.None? { return Err(NotPublished); }
    if campaign.budgetAmount.None? || campaign.budgetAmount.value == 0 { return Err(NoBudget); }
    var currentBudget := campaign.budgetAmount.value;
    var newBudget := Stepped(rec.kind, currentBudget);
    var payload := BudgetPayload(campaign.metaCampaignId.value, campaign.budgetType, currentBudget, newBudget);
    if !env.commitOk { return Err(DatabaseFailure); }
    var id := |db.approvals|;
    db.approvals := db.approvals + [NewApproval(BudgetOf(cid), payload, user.id, env.now)];
    db.recs := db.recs[rid := rec.(status := Acknowledged)];
    return Ok(id);
  }

  // ---------- The size of a step ----------

  /** A step stays within 20% either way up to rounding, and never takes a positive budget to zero. */
  lemma StepIsBounded(kind: RecommendationType, budget: int)
    requires IsBudgetStep(kind) && budget >= 0
    ensures var b := Stepped(kind, budget);
      4 * (budget + 2) <= 5 * (b + 2) <= 6 * (budget + 2) && (budget > 0 ==> b > 0)
  {
    RoundedTenths(6 * budget);
    RoundedTenths(4 * budget);
  }

  /** Rounding an even number of tenths moves it by at most four of them. */
  lemma RoundedTenths(n: int)
    ensures 2 * n - 4 <= 10 * ((2 * n + 5) / 10) <= 2 * n + 4
  {
    var q := (2 * n + 5) / 10;
    assert 10 * q != 2 * n + 5;
  }

  /** A step changes the budget exactly when it is large enough for 20% to survive the rounding. */
  lemma StepMovesIff(kind: RecommendationType, budget: int)
    requires IsBudgetStep(kind) && budget >= 0
    ensures Stepped(kind, budget) != budget <==> budget >= 3
  {
  }

  /** A request asks for 20% more exactly when the advice was to scale, for 20% less when it was to reduce, of this campaign as it is. */
  lemma RequestFollowsAdvice(w: World, user: User, rid: Id, env: Env)
    requires ApplySpec(w, user, rid, env).1.Ok?
    ensures rid in w.recs && w.recs[rid].campaignId.Some? && w.recs[rid].campaignId.value in w.content.campaigns
    ensures var kind, row := w.recs[rid].kind, w.content.campaigns[w.recs[rid].campaignId.value];
      var v, n := ApplySpec(w, user, rid, env).0, |w.approvals|;
      && row.budgetAmount.Some? && row.metaCampaignId.Some? && |v.approvals| == n + 1
      && var c, a := row.budgetAmount.value, v.approvals[n];
      && a.subject == BudgetOf(w.recs[rid].campaignId.value) && a.status == PENDING && a.requestedBy == user.id
      && a.payload.BudgetPayload? && a.payload.currentBudget == c && a.payload.budgetType == row.budgetType
      && a.payload.metaCampaignId == row.metaCampaignId.value
      && (kind == ScaleBudget || kind == ReduceBudget)
      && (kind == ScaleBudget ==> 12 * c - 5 <= 10 * a.payload.newBudget <= 12 * c + 5)
      && (kind == ReduceBudget ==> 8 * c - 5 <= 10 * a.payload.newBudget <= 8 * c + 5)
      && (c >= 3 ==> (a.payload.newBudget > c <==> kind == ScaleBudget) && (a.payload.newBudget < c <==> kind == ReduceBudget))
  {
    var row := w.content.campaigns[w.recs[rid].campaignId.value];
    RoundedTenths(6 * row.budgetAmount.value);
    RoundedTenths(4 * row.budgetAmount.value);
  }

  /** Advice that was applied is acknowledged, and cannot be applied again by anyone. */
  lemma AppliedOnce(w: World, user: User, rid: Id, env: Env, other: User, later: Env)
    requires ApplySpec(w, user, rid, env).1.Ok?
    ensures var v := ApplySpec(w, user, rid, env).0;
      && v.recs == w.recs[rid := w.recs[rid].(status := Acknowledged)]
      && ApplySpec(v, other, rid, later) == (v, Err(AlreadyHandled))
  {
  }

  /** Advice can be applied exactly when it is new, about a budget, and about a campaign on Meta that has one. */
  lemma ApplyGoesThroughIff(w: World, user: User, rid: Id, env: Env)
    requires rid in w.recs
    ensures var rec := w.recs[rid];
      ApplySpec(w, user, rid, env).1.Ok? <==>
        && rec.status == New && rec.kind in {ScaleBudget, ReduceBudget} && env.commitOk
        && rec.campaignId.Some? && rec.campaignId.value in w.content.campaigns
        && w.content.campaigns[rec.campaignId.value].metaCampaignId.Some?
        && w.content.campaigns[rec.campaignId.value].budgetAmount !in {None, Some(0)}
  {
  }
}
