/** campaigns.service.ts: drafts and their edits, which is how a campaign drifts from what was approved. */
module CampaignsService {
  import opened Core
  import opened PublishPlan
  import opened MetaStore
  import opened Rows
  import opened World

  datatype DraftInput = DraftInput(
    clientId: Id, name: string, goal: Goal, budgetType: BudgetType, budgetAmount: Option<int>, targetingDraft: Option<Targeting>)

  datatype CampaignEdit = CampaignEdit(
    name: Option<string>, goal: Option<Goal>, budgetType: Option<BudgetType>, budgetAmount: Option<int>,
    targetingDraft: Option<Targeting>)

  // ---------- Specification ----------

  function NewDraft(input: DraftInput): Campaign {
    Campaign(input.clientId, input.name, Some(input.goal), Draft, None, None, input.budgetType, input.budgetAmount, [],
             input.targetingDraft)
  }

  function WithCampaign(w: World, cid: Id, row: Campaign): World {
    w.(content := w.content.(campaigns := w.content.campaigns[cid := row]))
  }

  /** `cid` is the new row's key, `clientFound` whether the client exists. */
  function CreateDraftSpec(w: World, user: User, cid: Id, input: DraftInput, clientFound: bool, env: Env): (World, Result<Id>) {
    if OutOfScope(user, input.clientId) || !clientFound then (w, Err(NotFound))
    else if !env.commitOk || cid in w.content.campaigns then (w, Err(DatabaseFailure))
    else (WithCampaign(w, cid, NewDraft(input)), Ok(cid))
  }

  predicate IsEditable(s: CampaignStatus) { s == Draft || s == PendingApproval }

  /** Fields that are left out, and empty names, change nothing. */
  function Edited(row: Campaign, e: CampaignEdit): Campaign {
    row.(name := if e.name.GetOr("") != "" then e.name.value else row.name,
         goal := if e.goal.Some? then e.goal else row.goal,
         budgetType := e.budgetType.GetOr(row.budgetType),
         budgetAmount := if e.budgetAmount.Some? then e.budgetAmount else row.budgetAmount,
         targetingDraft := if e.targetingDraft.Some? then e.targetingDraft else row.targetingDraft)
  }

  function UpdateSpec(w: World, user: User, cid: Id, e: CampaignEdit, env: Env): (World, Result<Done>) {
    if cid !in w.content.campaigns || OutOfScope(user, w.content.campaigns[cid].clientId) then (w, Err(NotFound))
    else if !IsEditable(w.content.campaigns[cid].status) then (w, Err(NotEditable))
    else if !env.commitOk then (w, Err(DatabaseFailure))
    else (WithCampaign(w, cid, Edited(w.content.campaigns[cid], e)), Ok(Done))
  }

  // ---------- The service ----------

  method CreateDraft(db: Database, mc: MetaConnector, user: User, cid: Id, input: DraftInput, clientFound: bool, env: Env)
    returns (r: Result<Id>)
    modifies db
    ensures (View(db, mc), r) == CreateDraftSpec(old(View(db, mc)), user, cid, input, clientFound, env)
  {
    if OutOfScope(user, input.clientId) { return Err(NotFound); }
    if !clientFound { return Err(NotFound); }
    if !env.commitOk || cid in db.content.campaigns { return Err(DatabaseFailure); }
    var row := Campaign(input.clientId, input.name, Some(input.goal), Draft, None, None, input.budgetType,
                        input.budgetAmount, [], input.targetingDraft);
    db.content := db.content.(campaigns := db.content.campaigns[cid := row]);
    return Ok(cid);
  }

  method Update(db: Database, mc: MetaConnector, user: User, cid: Id, e: CampaignEdit, env: Env) returns (r: Result<Done>)
    modifies db
    ensures (View(db, mc), r) == UpdateSpec(old(View(db, mc)), user, cid, e, env)
  {
    if cid !in db.content.campaigns { return Err(NotFound); }
    var row := db.content.campaigns[cid];
    if OutOfScope(user, row.clientId) { return Err(NotFound); }
    if row.status != Draft && row.status != PendingApproval { return Err(NotEditable); }
    if !env.commitOk { return Err(DatabaseFailure); }
    if e.name.Some? && e.name.value != "" { row := row.(name := e.name.value); }
    if e.goal.Some? { row := row.(goal := e.goal); }
    if e.budgetType.Some? { row := row.(budgetType := e.budgetType.value); }
    if e.budgetAmount.Some? { row := row.(budgetAmount := e.budgetAmount); }
    if e.targetingDraft.Some? { row := row.(targetingDraft := e.targetingDraft); }
    db.content := db.content.(campaigns := db.content.campaigns[cid := row]);
    return Ok(Done);
  }

  // ---------- What an edit can do ----------

  /** Given fields are taken, the others and the publishing state are kept. */
  predicate IsEditOf(before: Campaign, after: Campaign, e: CampaignEdit) {
    && after.clientId == before.clientId && after.status == before.status && after.metaCampaignId == before.metaCampaignId
    && after.adAccountId == before.adAccountId && after.specialAdCategories == before.specialAdCategories
    && (e.name.Some? && |e.name.value| > 0 ==> after.name == e.name.value)
    && (e.name.None? || e.name.value == "" ==> after.name == before.name)
    && (if e.goal.Some? then after.goal == e.goal else after.goal == before.goal)
    && (if e.budgetType.Some? then after.budgetType == e.budgetType.value else after.budgetType == before.budgetType)
    && (if e.budgetAmount.Some? then after.budgetAmount == e.budgetAmount else after.budgetAmount == before.budgetAmount)
    && (if e.targetingDraft.Some? then after.targetingDraft == e.targetingDraft else after.targetingDraft == before.targetingDraft)
  }

  lemma EditedIsEdit(row: Campaign, e: CampaignEdit)
    ensures IsEditOf(row, Edited(row, e), e)
  {
  }

  /**
   * Outside DRAFT and PENDING_APPROVAL an edit changes nothing, so it cannot touch what was approved;
   * inside, it takes exactly the given fields of that one campaign and leaves its state alone.
   */
  lemma EditsReachDraftsOnly(w: World, user: User, cid: Id, e: CampaignEdit, env: Env)
    ensures var v := UpdateSpec(w, user, cid, e, env).0;
      && (cid !in w.content.campaigns || w.content.campaigns[cid].status !in {Draft, PendingApproval} ==> v == w)
      && v.content.campaigns.Keys == w.content.campaigns.Keys
      && (forall c :: c in w.content.campaigns && c != cid ==> v.content.campaigns[c] == w.content.campaigns[c])
      && (UpdateSpec(w, user, cid, e, env).1.Ok? ==> cid in w.content.campaigns && IsEditOf(w.content.campaigns[cid], v.content.campaigns[cid], e))
  {
    hide Edited, IsEditOf, OutOfScope;
    if cid in w.content.campaigns { EditedIsEdit(w.content.campaigns[cid], e); }
  }

  /** An edit goes through exactly in those two statuses, for a user who sees the client. */
  lemma EditGoesThroughIff(w: World, user: User, cid: Id, e: CampaignEdit, env: Env)
    ensures UpdateSpec(w, user, cid, e, env).1.Ok? <==>
      && cid in w.content.campaigns && !OutOfScope(user, w.content.campaigns[cid].clientId)
      && w.content.campaigns[cid].status in {Draft, PendingApproval} && env.commitOk
  {
    hide Edited, WithCampaign, OutOfScope;
  }
}
