/**
 * A published campaign, row by row: every row of the campaign names its own new entity on Meta, the
 * entity shows what the row says, and what the rows name can be paused again.
 */
module LiveCampaign {
  import opened Core
  import opened PublishPlan
  import opened MetaStore
  import opened Rows
  import opened PlanRun
  import opened TreeCopy
  import opened PublishSafety
  import opened World
  import opened BundleBuilder
  import opened PublishService
  import opened PublishHistory
  import opened LiveRows

  // ---------- What it means for a row to be live ----------

  ghost predicate IsNew(w: World, v: World, id: MetaId, kind: EntityType) {
    id.kind == kind && id in v.meta.entities && id !in w.meta.entities
  }

  predicate IsGoalCall(goal: Option<Goal>, objective: string) {
    && (goal in {None, Some(Leads)} ==> objective == "OUTCOME_LEADS")
    && (goal in {Some(Sales), Some(Remarketing)} ==> objective == "OUTCOME_SALES")
    && (goal in {Some(Messages), Some(Engagement)} ==> objective == "OUTCOME_ENGAGEMENT")
    && (goal == Some(Traffic) ==> objective == "OUTCOME_TRAFFIC")
    && (goal == Some(Awareness) ==> objective == "OUTCOME_AWARENESS")
  }

  predicate IsDefaultOptimization(goal: Option<Goal>, optimization: string) {
    && (goal in {None, Some(Leads)} ==> optimization == "LEAD_GENERATION")
    && (goal in {Some(Sales), Some(Remarketing)} ==> optimization == "OFFSITE_CONVERSIONS")
    && (goal == Some(Traffic) ==> optimization == "LANDING_PAGE_VIEWS")
    && (goal == Some(Messages) ==> optimization == "CONVERSATIONS")
    && (goal == Some(Awareness) ==> optimization == "REACH")
    && (goal == Some(Engagement) ==> optimization == "POST_ENGAGEMENT")
  }

  /** The campaign's row names the new ACTIVE campaign, and the account it was made in. */
  ghost predicate CampaignIsLive(w: World, v: World, cid: Id) {
    && cid in v.content.campaigns
    && var row := v.content.campaigns[cid];
    && row.metaCampaignId == Some(MetaId(CampaignType, w.meta.counter + 1)) && IsNew(w, v, row.metaCampaignId.value, CampaignType)
    && row.clientId in w.accounts && row.adAccountId == Some(w.accounts[row.clientId].id) && row.status == Published
    && var e := v.meta.entities[row.metaCampaignId.value];
    e.status == Active && e.name == row.name && e.detail.OfCampaign? && IsGoalCall(row.goal, e.detail.objective)
  }

  /** The ad set's row names a new ACTIVE ad set of its name and goal under the campaign that the campaign's row names. */
  ghost predicate AdSetIsLive(w: World, v: World, cid: Id, sid: Id) {
    && cid in v.content.campaigns && sid in v.content.adSets
    && var row := v.content.adSets[sid];
    && row.published && row.metaAdSetId.Some? && IsNew(w, v, row.metaAdSetId.value, AdSetType)
    && var e := v.meta.entities[row.metaAdSetId.value];
    && e.status == Active && e.name == row.name && e.detail.OfAdSet? && e.detail.campaignId == v.content.campaigns[cid].metaCampaignId
    && if row.optimizationGoal.Some? then row.optimizationGoal == Some(e.detail.optimizationGoal)
       else IsDefaultOptimization(v.content.campaigns[cid].goal, e.detail.optimizationGoal)
  }

  /**
   * The ad's row names a new ACTIVE ad of its name under the ad set that the ad set's row names; if
   * the row has a creative, the ad shows a new one with the row's text and title.
   */
  ghost predicate AdIsLive(w: World, v: World, sid: Id, aid: Id) {
    && sid in v.content.adSets && aid in v.content.ads
    && var row := v.content.ads[aid];
    && row.published && row.metaAdId.Some? && IsNew(w, v, row.metaAdId.value, AdType)
    && var e := v.meta.entities[row.metaAdId.value];
    && e.status == Active && e.name == row.name && e.detail.OfAd? && e.detail.adSetId == v.content.adSets[sid].metaAdSetId
    && e.detail.creativeId.Some? == row.creativeId.Some?
    && (row.creativeId.Some? ==> IsNew(w, v, e.detail.creativeId.value, CreativeType) && ShowsText(v, v.meta.entities[e.detail.creativeId.value], row))
  }

  /** The creative on Meta has the ad's text and title, under the name of the ad's creative if it has one. */
  predicate ShowsText(v: World, creative: Entity, row: AdRow) {
    && creative.detail == OfCreative(row.primaryText.GetOr(""), row.headline.GetOr(""))
    && creative.name == if row.creativeId.Some? && row.creativeId.value in v.content.creatives
                        then v.content.creatives[row.creativeId.value].name else row.name
  }

  /** The creative's row names a new creative that shows the text of an ad of the campaign using it. */
  ghost predicate CreativeIsLive(w: World, v: World, cid: Id, ref: Id) {
    && ref in v.content.creatives && v.content.creatives[ref].metaCreativeId.Some?
    && IsNew(w, v, v.content.creatives[ref].metaCreativeId.value, CreativeType)
    && exists sid, aid :: IsAdOf(v.content, cid, sid, aid) && v.content.ads[aid].creativeId.GetOr(aid) == ref
         && ShowsText(v, v.meta.entities[v.content.creatives[ref].metaCreativeId.value], v.content.ads[aid])
  }

  predicate IsAdSetOf(c: Content, cid: Id, sid: Id) { sid in c.adSetScan && sid in c.adSets && c.adSets[sid].campaignId == cid }

  predicate IsAdOf(c: Content, cid: Id, sid: Id, aid: Id) {
    IsAdSetOf(c, cid, sid) && aid in c.adScan && aid in c.ads && c.ads[aid].adSetId == Some(sid)
  }

  // ---------- From the tree to the rows ----------

  /** Which node of the tree a row became. */
  lemma NodeOfAdSet(c: Content, accounts: map<Id, Account>, cid: Id, sid: Id) returns (j: nat)
    requires cid in c.campaigns && IsAdSetOf(c, cid, sid)
    ensures var b, t := BuildBundle(c, accounts, cid), Compile(BuildBundle(c, accounts, cid));
      && j < |t.sets| && j < |b.adSets| && t.sets[j] == SetNodeOf(b, b.adSets[j]) && t.sets[j].id == sid
      && t.sets[j].spec.name == c.adSets[sid].name && b.adSets[j].ads == AdInfosOf(c, sid)
      && if c.adSets[sid].optimizationGoal.Some? then c.adSets[sid].optimizationGoal == Some(t.sets[j].spec.optimizationGoal)
         else IsDefaultOptimization(c.campaigns[cid].goal, t.sets[j].spec.optimizationGoal)
  {
    hide AdInfosOf, BuildBundle;
    BundleIsComplete(c, accounts, cid);
    var b := BuildBundle(c, accounts, cid);
    j :| 0 <= j < |b.adSets| && b.adSets[j].id == sid;
  }

  lemma NodeOfAd(c: Content, b: Bundle, s: AdSetInfo, sid: Id, aid: Id) returns (k: nat)
    requires s.ads == AdInfosOf(c, sid) && aid in c.adScan && aid in c.ads && c.ads[aid].adSetId == Some(sid)
    ensures k < |SetNodeOf(b, s).ads| && k < |s.ads| && SetNodeOf(b, s).ads[k] == AdNodeOf(b, s.ads[k])
    ensures s.ads[k].id == aid && CarriesAd(c, s.ads[k])
  {
    hide AdInfosOf, CarriesAd;
    AdsAreCarried(c, sid);
    k :| 0 <= k < |s.ads| && s.ads[k].id == aid;
  }

  /** The world after a complete run of the plan, and what it is made of. */
  lemma SuccessIs(w: World, cid: Id, env: Env)
    requires KeysOk(w.content) && Numbered(w.meta) && cid in w.content.campaigns && PublishSpec(w, cid, env).1.Ok?
    ensures var v, c := PublishSpec(w, cid, env).0, WriteStatus(w.content, cid, Publishing);
      var t := Compile(BuildBundle(w.content, w.accounts, cid));
      && AccountOf(w, w.content.campaigns[cid].clientId).Some? && t.id == cid && v.accounts == w.accounts
      && KeysOk(c) && cid in c.campaigns && BuildBundle(c, w.accounts, cid) == BuildBundle(w.content, w.accounts, cid)
      && Publishable(w.meta, c, JobOf(w, cid), t)
      && var s := RunSteps(Start(w.meta, c), JobOf(w, cid), Flatten(t));
      v.meta == s.meta && v.content == WriteStatus(s.content, cid, Published)
  {
    hide BuildBundle, CopyTree, KeysOk, Attempt, LatestApproved, RunSteps, Flatten;
    var aid := PublishGuard(w, cid, env).value;
    GuardGivesApproved(w, cid, env, aid);
    StatusIsNotDrift(w.content, w.accounts, cid, Publishing);
    var t := Compile(BuildBundle(w.content, w.accounts, cid));
    var c := Consume(w, cid, aid).content;
    BundleIsPublishable(c, w.accounts, cid, w.meta, JobOf(w, cid).accountId);
    RunPublishIs(w, cid, aid, t, env);
    var j := AttemptIsPrefix(Start(w.meta, c), JobOf(w, cid), Flatten(t), env.fault);
  }

  /** One node of the tree after a complete run: its entities, and the rows that name them. */
  lemma NodeIsLive(m: Meta, c: Content, job: Job, t: Tree, j: nat)
    requires Publishable(m, c, job, t) && job.campaignId in c.campaigns && j < |t.sets|
    requires forall s :: s in t.sets ==> s.id in c.adSets
    ensures var s := RunSteps(Start(m, c), job, Flatten(t));
      && SetCopied(s.meta, MetaId(CampaignType, m.counter + 1), m.counter + 1 + Before(t.sets, j), t.sets[j], c, Active)
      && SetRecorded(s.content, m.counter + 1 + Before(t.sets, j), t.sets[j])
      && SameDrafts(c, s.content) && SameRows(c, s.content)
      && s.content.campaigns[t.id].metaCampaignId == Some(MetaId(CampaignType, m.counter + 1))
  {
    hide RunSteps, Flatten, SetCopied, SetRecorded, CopySets, CreativeRecorded;
    CompleteRunRecords(m, c, job, t);
    PublishCopiesTree(m, c, job, t);
    var withCampaign := Add(m, CampaignType, CampaignEntity(t.spec, Active));
    assert Numbered(withCampaign);
    CopiedSetAt(withCampaign, NextId(m, CampaignType), t.sets, c, Active, j);
  }

  lemma TreeRowsExist(c: Content, accounts: map<Id, Account>, cid: Id)
    requires cid in c.campaigns
    ensures forall s :: s in Compile(BuildBundle(c, accounts, cid)).sets ==> s.id in c.adSets
  {
    hide BuildBundle, AdInfosOf;
    BundleIsComplete(c, accounts, cid);
    var b, t := BuildBundle(c, accounts, cid), Compile(BuildBundle(c, accounts, cid));
    forall s | s in t.sets ensures s.id in c.adSets {
      var j :| 0 <= j < |t.sets| && t.sets[j] == s;
      assert s == SetNodeOf(b, b.adSets[j]) && CarriesSet(c, b.adSets[j]);
    }
  }

  lemma SameAdSetsOf(c: Content, d: Content, cid: Id, sid: Id)
    requires SameDrafts(c, d)
    ensures IsAdSetOf(c, cid, sid) <==> IsAdSetOf(d, cid, sid)
    ensures forall aid :: IsAdOf(c, cid, sid, aid) <==> IsAdOf(d, cid, sid, aid)
  {
  }

  lemma AdSetGoesLive(w: World, cid: Id, env: Env, sid: Id)
    requires KeysOk(w.content) && Numbered(w.meta) && cid in w.content.campaigns && PublishSpec(w, cid, env).1.Ok?
    requires IsAdSetOf(w.content, cid, sid)
    ensures AdSetIsLive(w, PublishSpec(w, cid, env).0, cid, sid)
  {
    hide PublishSpec, KeysOk, BuildBundle, RunSteps, Flatten, Compile, Before, Publishable;
    SuccessIs(w, cid, env);
    var v, c := PublishSpec(w, cid, env).0, WriteStatus(w.content, cid, Publishing);
    var t := Compile(BuildBundle(c, w.accounts, cid));
    TreeRowsExist(c, w.accounts, cid);
    var j := NodeOfAdSet(c, w.accounts, cid, sid);
    NodeIsLive(w.meta, c, JobOf(w, cid), t, j);
    assert MetaId(AdSetType, w.meta.counter + 1 + Before(t.sets, j) + 1) !in w.meta.entities;
  }

  lemma AdGoesLive(w: World, cid: Id, env: Env, sid: Id, aid: Id)
    requires KeysOk(w.content) && Numbered(w.meta) && cid in w.content.campaigns && PublishSpec(w, cid, env).1.Ok?
    requires IsAdOf(w.content, cid, sid, aid)
    ensures AdIsLive(w, PublishSpec(w, cid, env).0, sid, aid)
  {
    hide AdIsLive, SetCopied, PublishSpec, KeysOk, BuildBundle, RunSteps, Flatten, Compile, Before, Publishable, AdInfosOf;
    SuccessIs(w, cid, env);
    var v, c := PublishSpec(w, cid, env).0, WriteStatus(w.content, cid, Publishing);
    var b, t := BuildBundle(c, w.accounts, cid), Compile(BuildBundle(c, w.accounts, cid));
    TreeRowsExist(c, w.accounts, cid);
    var j := NodeOfAdSet(c, w.accounts, cid, sid);
    var k := NodeOfAd(c, b, b.adSets[j], sid, aid);
    NodeIsLive(w.meta, c, JobOf(w, cid), t, j);
    var n := w.meta.counter + 1 + Before(t.sets, j);
    AdNodeIsLive(w, v, c, b, n, t.sets[j], b.adSets[j].ads[k], k, sid);
  }

  /** The facts about one ad node, read as facts about its row. */
  lemma AdNodeIsLive(w: World, v: World, c: Content, b: Bundle, n: nat, s: SetNode, ad: AdInfo, k: nat, sid: Id)
    requires Numbered(w.meta) && w.meta.counter <= n && k < |s.ads| && s.ads[k] == AdNodeOf(b, ad) && s.id == sid
    requires CarriesAd(c, ad) && SameDrafts(c, v.content)
    requires SetCopied(v.meta, MetaId(CampaignType, w.meta.counter + 1), n, s, c, Active) && SetRecorded(v.content, n, s)
    ensures AdIsLive(w, v, sid, ad.id)
  {
    assert AdCopied(v.meta, MetaId(AdSetType, n + 1), n + 1 + 2 * k, s.ads[k], c, Active);
    assert MetaId(AdType, n + 1 + 2 * k + 2) !in w.meta.entities && MetaId(CreativeType, n + 1 + 2 * k + 1) !in w.meta.entities;
  }

  lemma CampaignGoesLiveToo(w: World, cid: Id, env: Env)
    requires KeysOk(w.content) && Numbered(w.meta) && cid in w.content.campaigns && PublishSpec(w, cid, env).1.Ok?
    ensures CampaignIsLive(w, PublishSpec(w, cid, env).0, cid)
    ensures SameDrafts(w.content, PublishSpec(w, cid, env).0.content)
    ensures PublishSpec(w, cid, env).0.content.campaigns[cid].clientId == w.content.campaigns[cid].clientId
  {
    hide PublishSpec, KeysOk, BuildBundle, RunSteps, Flatten, Before, Publishable, CopySets, SetRecorded, CreativeRecorded;
    SuccessIs(w, cid, env);
    var v, c := PublishSpec(w, cid, env).0, WriteStatus(w.content, cid, Publishing);
    var t := Compile(BuildBundle(c, w.accounts, cid));
    TreeRowsExist(c, w.accounts, cid);
    CompleteRunRecords(w.meta, c, JobOf(w, cid), t);
    PublishCopiesTree(w.meta, c, JobOf(w, cid), t);
    BundleIsComplete(c, w.accounts, cid);
    CampaignEntityIs(w.meta, t, c);
  }

  lemma CampaignEntityIs(m: Meta, t: Tree, c: Content)
    requires Numbered(m)
    ensures var m', id := CopyTree(m, t, c, Active), MetaId(CampaignType, m.counter + 1);
      id !in m.entities && id in m'.entities && m'.entities[id] == CampaignEntity(t.spec, Active)
  {
    hide CopySets;
    var m1 := Add(m, CampaignType, CampaignEntity(t.spec, Active));
    assert Numbered(m1);
    var m' := CopiedSets(m1, NextId(m, CampaignType), t.sets, c, Active);
  }

  lemma CreativeGoesLive(w: World, cid: Id, env: Env, sid: Id, aid: Id)
    requires KeysOk(w.content) && Numbered(w.meta) && cid in w.content.campaigns && PublishSpec(w, cid, env).1.Ok?
    requires IsAdOf(w.content, cid, sid, aid) && w.content.ads[aid].creativeId.Some?
    requires w.content.ads[aid].creativeId.value in w.content.creatives
    ensures CreativeIsLive(w, PublishSpec(w, cid, env).0, cid, w.content.ads[aid].creativeId.value)
  {
    hide PublishSpec, KeysOk, BuildBundle, RunSteps, Flatten, Compile, Before, Publishable, AdInfosOf, SetRecorded;
    SuccessIs(w, cid, env);
    var ref := w.content.ads[aid].creativeId.value;
    var v, c := PublishSpec(w, cid, env).0, WriteStatus(w.content, cid, Publishing);
    var b, t := BuildBundle(c, w.accounts, cid), Compile(BuildBundle(c, w.accounts, cid));
    TreeRowsExist(c, w.accounts, cid);
    var j := NodeOfAdSet(c, w.accounts, cid, sid);
    var k := NodeOfAd(c, b, b.adSets[j], sid, aid);
    CompleteRunRecords(w.meta, c, JobOf(w, cid), t);
    var s := RunSteps(Start(w.meta, c), JobOf(w, cid), Flatten(t));
    assert t.sets[j].ads[k].creativeRef == ref;
    assert CreativeRecorded(w.meta, s.meta, s.content, t.sets, ref);
    var j', k' :| 0 <= j' < |t.sets| && 0 <= k' < |t.sets[j'].ads|
      && ShownFor(s.meta.entities[s.content.creatives[ref].metaCreativeId.value], ref, t.sets[j'].ads[k']);
    RowOfNode(c, w.accounts, cid, j', k');
    var ad := b.adSets[j'].ads[k'];
    assert IsAdOf(v.content, cid, b.adSets[j'].id, ad.id);
    NodeShowsRow(c, v, b, ad, v.meta.entities[v.content.creatives[ref].metaCreativeId.value]);
  }

  /** Which rows a node of the tree came from. */
  lemma RowOfNode(c: Content, accounts: map<Id, Account>, cid: Id, j: nat, k: nat)
    requires cid in c.campaigns
    requires j < |Compile(BuildBundle(c, accounts, cid)).sets| && k < |Compile(BuildBundle(c, accounts, cid)).sets[j].ads|
    ensures var b, t := BuildBundle(c, accounts, cid), Compile(BuildBundle(c, accounts, cid));
      && j < |b.adSets| && k < |b.adSets[j].ads| && t.sets[j].ads[k] == AdNodeOf(b, b.adSets[j].ads[k])
      && CarriesAd(c, b.adSets[j].ads[k]) && IsAdOf(c, cid, b.adSets[j].id, b.adSets[j].ads[k].id)
  {
    hide BuildBundle, AdsOf, AdSetsOf, AdInfosOf;
    var b, t := BuildBundle(c, accounts, cid), Compile(BuildBundle(c, accounts, cid));
    BundleIsComplete(c, accounts, cid);
    assert t.sets[j] == SetNodeOf(b, b.adSets[j]);
    AdsAreCarried(c, b.adSets[j].id);
    InScan(c, accounts, cid, j, k);
  }

  lemma InScan(c: Content, accounts: map<Id, Account>, cid: Id, j: nat, k: nat)
    requires cid in c.campaigns && j < |BuildBundle(c, accounts, cid).adSets| && k < |BuildBundle(c, accounts, cid).adSets[j].ads|
    ensures var s := BuildBundle(c, accounts, cid).adSets[j]; s.id in c.adSetScan && s.ads[k].id in c.adScan
  {
    AdSetsOfHold(c, c.adSetScan, cid);
    var s := BuildBundle(c, accounts, cid).adSets[j];
    assert s.id == AdSetsOf(c, c.adSetScan, cid)[j];
    AdsOfHold(c, c.adScan, s.id);
    assert s.ads[k].id == AdsOf(c, c.adScan, s.id)[k];
  }

  lemma NodeShowsRow(c: Content, v: World, b: Bundle, ad: AdInfo, e: Entity)
    requires CarriesAd(c, ad) && SameDrafts(c, v.content) && e == CreativeEntity(AdNodeOf(b, ad).creative)
    ensures ad.id in v.content.ads && ShowsText(v, e, v.content.ads[ad.id])
  {
  }

  /** Two ads of a campaign get two ads on Meta. */
  lemma AdsDoNotShare(w: World, cid: Id, env: Env, sid1: Id, aid1: Id, sid2: Id, aid2: Id)
    requires KeysOk(w.content) && Numbered(w.meta) && cid in w.content.campaigns && PublishSpec(w, cid, env).1.Ok?
    requires IsAdOf(w.content, cid, sid1, aid1) && IsAdOf(w.content, cid, sid2, aid2) && aid1 != aid2
    ensures var c := PublishSpec(w, cid, env).0.content;
      aid1 in c.ads && aid2 in c.ads && c.ads[aid1].metaAdId != c.ads[aid2].metaAdId
  {
    hide PublishSpec, KeysOk, BuildBundle, Compile, Before;
    var t := Compile(BuildBundle(WriteStatus(w.content, cid, Publishing), w.accounts, cid));
    var j1, k1 := AdPlace(w, cid, env, sid1, aid1);
    var j2, k2 := AdPlace(w, cid, env, sid2, aid2);
    if j1 < j2 { BeforeGrows(t.sets, j1, j2); }
    if j2 < j1 { BeforeGrows(t.sets, j2, j1); }
  }

  lemma AdPlace(w: World, cid: Id, env: Env, sid: Id, aid: Id) returns (j: nat, k: nat)
    requires KeysOk(w.content) && Numbered(w.meta) && cid in w.content.campaigns && PublishSpec(w, cid, env).1.Ok?
    requires IsAdOf(w.content, cid, sid, aid)
    ensures var c := WriteStatus(w.content, cid, Publishing);
      cid in c.campaigns
      && var t, d := Compile(BuildBundle(c, w.accounts, cid)), PublishSpec(w, cid, env).0.content;
      && j < |t.sets| && k < |t.sets[j].ads| && t.sets[j].ads[k].id == aid && aid in d.ads
      && d.ads[aid].metaAdId == Some(MetaId(AdType, w.meta.counter + 1 + Before(t.sets, j) + 1 + 2 * k + 2))
  {
    hide PublishSpec, KeysOk, BuildBundle, RunSteps, Flatten, Compile, Before, Publishable, AdInfosOf;
    SuccessIs(w, cid, env);
    var c := WriteStatus(w.content, cid, Publishing);
    var b, t := BuildBundle(c, w.accounts, cid), Compile(BuildBundle(c, w.accounts, cid));
    TreeRowsExist(c, w.accounts, cid);
    j := NodeOfAdSet(c, w.accounts, cid, sid);
    k := NodeOfAd(c, b, b.adSets[j], sid, aid);
    NodeIsLive(w.meta, c, JobOf(w, cid), t, j);
  }

  // ---------- Main results ----------

  /**
   * A publish that succeeds makes every row of its campaign live: the campaign's, every ad set's,
   * every ad's with an ad of its own, and every creative's in use. Nothing else of the drafts changes.
   */
  lemma EveryRowGoesLive(w: World, cid: Id, env: Env)
    requires KeysOk(w.content) && Numbered(w.meta) && cid in w.content.campaigns && PublishSpec(w, cid, env).1.Ok?
    ensures var v := PublishSpec(w, cid, env).0;
      && CampaignIsLive(w, v, cid) && SameDrafts(w.content, v.content)
      && (forall sid :: IsAdSetOf(w.content, cid, sid) ==> AdSetIsLive(w, v, cid, sid))
      && (forall sid, aid :: IsAdOf(w.content, cid, sid, aid) ==>
            && AdIsLive(w, v, sid, aid)
            && (w.content.ads[aid].creativeId.Some? && w.content.ads[aid].creativeId.value in w.content.creatives ==>
                  CreativeIsLive(w, v, cid, w.content.ads[aid].creativeId.value)))
      && (forall s1, a1, s2, a2 :: IsAdOf(w.content, cid, s1, a1) && IsAdOf(w.content, cid, s2, a2) && a1 != a2 ==>
            v.content.ads[a1].metaAdId != v.content.ads[a2].metaAdId)
  {
    hide PublishSpec, KeysOk, AdSetIsLive, CreativeIsLive, CampaignIsLive, IsAdSetOf;
    var v := PublishSpec(w, cid, env).0;
    CampaignGoesLiveToo(w, cid, env);
    forall sid | IsAdSetOf(w.content, cid, sid) ensures AdSetIsLive(w, v, cid, sid) { AdSetGoesLive(w, cid, env, sid); }
    forall sid, aid | IsAdOf(w.content, cid, sid, aid)
      ensures AdIsLive(w, v, sid, aid)
      ensures w.content.ads[aid].creativeId.Some? && w.content.ads[aid].creativeId.value in w.content.creatives ==>
        CreativeIsLive(w, v, cid, w.content.ads[aid].creativeId.value)
    {
      AdGoesLive(w, cid, env, sid, aid);
      if w.content.ads[aid].creativeId.Some? && w.content.ads[aid].creativeId.value in w.content.creatives {
        CreativeGoesLive(w, cid, env, sid, aid);
      }
    }
    forall s1, a1, s2, a2 | IsAdOf(w.content, cid, s1, a1) && IsAdOf(w.content, cid, s2, a2) && a1 != a2
      ensures v.content.ads[a1].metaAdId != v.content.ads[a2].metaAdId
    {
      AdsDoNotShare(w, cid, env, s1, a1, s2, a2);
    }
  }

  /** And it can be stopped: pausing the published campaign leaves exactly the created campaign PAUSED. */
  lemma LiveCampaignCanBePaused(w: World, cid: Id, env: Env, later: Env)
    requires KeysOk(w.content) && Numbered(w.meta) && cid in w.content.campaigns && PublishSpec(w, cid, env).1.Ok?
    requires later.contextOk && later.callOk && later.commitOk
    ensures var v, id := PublishSpec(w, cid, env).0, MetaId(CampaignType, w.meta.counter + 1);
      var (p, r) := PauseSpec(v, cid, later);
      && r.Ok? && id !in w.meta.entities && id in v.meta.entities && v.meta.entities[id].status == Active
      && p.meta == v.meta.(entities := v.meta.entities[id := v.meta.entities[id].(status := Paused)])
      && cid in p.content.campaigns && p.content.campaigns[cid].status == OnHold
  {
    hide PublishSpec, KeysOk;
    SuccessIs(w, cid, env);
    CampaignGoesLiveToo(w, cid, env);
  }
}
