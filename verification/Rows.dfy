/** The draft-content tables: campaigns, ad sets, ads and creatives. */
module Rows {
  import opened Core
  import opened PublishPlan
  import opened MetaStore

  datatype CampaignStatus =
    | Draft | PendingApproval | Approved | Publishing | Published | OnHold | Archived | Failed

  datatype Campaign = Campaign(
    clientId: Id,
    name: string,
    goal: Option<Goal>,
    status: CampaignStatus,
    metaCampaignId: Option<MetaId>,
    adAccountId: Option<Id>,
    budgetType: BudgetType,
    budgetAmount: Option<int>,
    specialAdCategories: seq<string>,
    targetingDraft: Option<Targeting>)

  datatype AdSetRow = AdSetRow(
    campaignId: Id,
    name: string,
    published: bool,
    metaAdSetId: Option<MetaId>,
    optimizationGoal: Option<string>,
    billingEvent: Option<string>,
    budgetAmount: Option<int>,
    targeting: Option<Targeting>)

  datatype AdRow = AdRow(
    campaignId: Id,
    adSetId: Option<Id>,
    creativeId: Option<Id>,
    name: string,
    hook: Option<string>,
    published: bool,
    metaAdId: Option<MetaId>,
    primaryText: Option<string>,
    headline: Option<string>,
    description: Option<string>,
    cta: Option<string>,
    destinationUrl: Option<string>)

  datatype CreativeRow = CreativeRow(name: string, imageUrl: Option<string>, metaCreativeId: Option<MetaId>)

  /** The tables, with the order in which the database scans ad sets and ads. */
  datatype Content = Content(
    campaigns: map<Id, Campaign>,
    adSets: map<Id, AdSetRow>,
    adSetScan: seq<Id>,
    ads: map<Id, AdRow>,
    adScan: seq<Id>,
    creatives: map<Id, CreativeRow>)

  // ---------- Row writes of the publish loop ----------

  function WriteCampaignMeta(c: Content, cid: Id, id: MetaId, account: Id): Content {
    if cid in c.campaigns then
      c.(campaigns := c.campaigns[cid := c.campaigns[cid].(metaCampaignId := Some(id), adAccountId := Some(account))])
    else c
  }

  function WriteAdSetMeta(c: Content, sid: Id, id: MetaId): Content {
    if sid in c.adSets then
      c.(adSets := c.adSets[sid := c.adSets[sid].(metaAdSetId := Some(id), published := true)])
    else c
  }

  function WriteCreativeMeta(c: Content, ref: Id, id: MetaId): Content {
    if ref in c.creatives then
      c.(creatives := c.creatives[ref := c.creatives[ref].(metaCreativeId := Some(id))])
    else c
  }

  function WriteAdMeta(c: Content, aid: Id, id: MetaId): Content {
    if aid in c.ads then
      c.(ads := c.ads[aid := c.ads[aid].(metaAdId := Some(id), published := true)])
    else c
  }

  function WriteStatus(c: Content, cid: Id, status: CampaignStatus): Content {
    if cid in c.campaigns then c.(campaigns := c.campaigns[cid := c.campaigns[cid].(status := status)]) else c
  }
}
