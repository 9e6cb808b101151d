/** What a plan asks Meta for, read off the rows: every row of the campaign is asked for as it stands, and nothing else is. */
module PlanContent {
  import opened Core
  import opened PublishPlan
  import opened PlanShape
  import opened Rows
  import opened World
  import opened BundleBuilder
  import opened LiveRows
  import opened LiveCampaign

  // ---------- What a call must say ----------

  /** The own value, or else the draft's, or else the default. */
  predicate FallsBack<T(==)>(v: T, own: Option<T>, draft: Option<T>, default: T) {
    if own.Some? then own == Some(v) else if draft.Some? then draft == Some(v) else v == default
  }

  predicate IsCtaCall(cta: Option<string>, action: string) {
    && (action == "SIGN_UP" <==> cta in {Some("השאירו פרטים"), Some("הצטרפו עכשיו")})
    && (action == "BOOK_TRAVEL" <==> cta == Some("קבעו שיחה"))
    && (action == "GET_OFFER" <==> cta == Some("קבלו הצעה"))
    && (action == "CONTACT_US" <==> cta == Some("צרו קשר"))
    && (action == "SHOP_NOW" <==> cta == Some("קנו עכשיו"))
    && action in {"SIGN_UP", "BOOK_TRAVEL", "GET_OFFER", "CONTACT_US", "SHOP_NOW", "LEARN_MORE"}
  }

  /** A budget of zero, like none, is not sent. */
  predicate IsBudgetCall(sent: Option<int>, amount: Option<int>) { sent.GetOr(0) == amount.GetOr(0) && sent != Some(0) }

  predicate IsCampaignCall(row: Campaign, spec: CampaignSpec) {
    && spec.name == row.name && spec.status == Paused && spec.specialAdCategories == row.specialAdCategories
    && IsGoalCall(row.goal, spec.objective)
    && IsBudgetCall(spec.dailyBudget, if row.budgetType == Daily then row.budgetAmount else None)
    && IsBudgetCall(spec.lifetimeBudget, if row.budgetType == Lifetime then row.budgetAmount else None)
  }

  function TargetingOr(t: Option<Targeting>): Targeting { t.GetOr(Targeting(None, None, None, None)) }

  predicate IsAdSetCall(campaign: Campaign, row: AdSetRow, pixel: Option<string>, spec: AdSetSpec) {
    var own, draft := TargetingOr(row.targeting), TargetingOr(campaign.targetingDraft);
    && spec.name == row.name && spec.status == Paused
    && FallsBack(spec.countries, own.countries, draft.countries, ["IL"])
    && FallsBack(spec.ageMin, own.ageMin, draft.ageMin, 18) && FallsBack(spec.ageMax, own.ageMax, draft.ageMax, 65)
    && FallsBack(spec.advantageAudience, own.advantageAudience, None, true)
    && FallsBack(spec.billingEvent, row.billingEvent, None, "IMPRESSIONS")
    && (if row.optimizationGoal.Some? then row.optimizationGoal == Some(spec.optimizationGoal)
        else IsDefaultOptimization(campaign.goal, spec.optimizationGoal))
    && IsBudgetCall(spec.dailyBudget, row.budgetAmount)
    && (if pixel in {None, Some("")} then spec.pixelId == None else spec.pixelId == pixel)
  }

  /** The creative's name and image come from the creative the ad names, if there is one. */
  predicate IsCreativeCall(c: Content, row: AdRow, page: Option<string>, spec: CreativeSpec) {
    var creative := row.creativeId.Some? && row.creativeId.value in c.creatives;
    && spec.name == (if creative then c.creatives[row.creativeId.value].name else row.name)
    && (if creative && c.creatives[row.creativeId.value].imageUrl != Some("") then spec.imageUrl == c.creatives[row.creativeId.value].imageUrl
        else spec.imageUrl == None)
    && FallsBack(spec.message, row.primaryText, None, "") && FallsBack(spec.headline, row.headline, None, "")
    && FallsBack(spec.description, row.description, None, "") && FallsBack(spec.linkUrl, row.destinationUrl, None, "")
    && FallsBack(spec.pageId, page, None, "") && spec.instagramUserId == None && IsCtaCall(row.cta, spec.callToActionType)
  }

  function PageOf(accounts: map<Id, Account>, clientId: Id): Option<string> {
    if clientId in accounts then accounts[clientId].pageId else None
  }

  function PixelOf(accounts: map<Id, Account>, clientId: Id): Option<string> {
    if clientId in accounts then accounts[clientId].pixelId else None
  }

  /** The plan asks for the ad set as its row says. */
  ghost predicate AsksForAdSet(p: Plan, c: Content, accounts: map<Id, Account>, cid: Id, sid: Id)
    requires cid in c.campaigns && sid in c.adSets
  {
    exists x :: x in p && x.CreateAdSet? && x.localId == sid
      && IsAdSetCall(c.campaigns[cid], c.adSets[sid], PixelOf(accounts, c.campaigns[cid].clientId), x.adSetSpec)
  }

  /** The plan asks for the ad's creative, and right after it for the ad. */
  ghost predicate AsksForAd(p: Plan, c: Content, accounts: map<Id, Account>, cid: Id, aid: Id)
    requires cid in c.campaigns && aid in c.ads
  {
    exists i :: 0 <= i < |p| - 1 && p[i].CreateCreative? && p[i + 1].CreateAd?
      && p[i].localId == c.ads[aid].creativeId.GetOr(aid) && p[i + 1].localId == aid
      && IsCreativeCall(c, c.ads[aid], PageOf(accounts, c.campaigns[cid].clientId), p[i].creativeSpec)
      && p[i + 1].adSpec == AdSpec(c.ads[aid].name, Paused)
  }

  // ---------- What the compiler writes ----------

  lemma CampaignCallSays(c: Content, accounts: map<Id, Account>, cid: Id)
    requires cid in c.campaigns
    ensures IsCampaignCall(c.campaigns[cid], Compile(BuildBundle(c, accounts, cid)).spec)
  {
    hide AdSetInfosOf;
  }

  lemma AdSetCallSays(c: Content, b: Bundle, s: AdSetInfo, campaign: Campaign)
    requires CarriesSet(c, s) && b.campaign.goal == campaign.goal && b.campaign.targetingDraft == campaign.targetingDraft
    ensures IsAdSetCall(campaign, c.adSets[s.id], b.pixelId, AdSetSpecOf(b, s))
  {
  }

  lemma CreativeCallSays(c: Content, b: Bundle, ad: AdInfo)
    requires CarriesAd(c, ad) && b.igAccountId == None
    ensures IsCreativeCall(c, c.ads[ad.id], b.pageId, CreativeSpecOf(b, ad))
  {
  }

  // ---------- Where the calls are ----------

  lemma {:induction false} AdCallsAt(sets: seq<SetNode>, n: nat, j: nat, i: nat)
    requires j < |sets| && i < 2 * |sets[j].ads|
    ensures |AdCreates(sets[j].ads, n + Before(sets, j) + 1)| == 2 * |sets[j].ads|
    ensures Before(sets, j) + 1 + i < |SetCreates(sets, n)|
    ensures SetCreates(sets, n)[Before(sets, j) + 1 + i] == AdCreates(sets[j].ads, n + Before(sets, j) + 1)[i]
    decreases j
  {
    AdCreatesLength(sets[0].ads, n + 1);
    if j > 0 { AdCallsAt(sets[1..], n + 1 + 2 * |sets[0].ads|, j - 1, i); }
  }

  predicate IsSetOf(x: Step, s: SetNode) { x.CreateAdSet? && x.localId == s.id }
  predicate IsAdIn(x: Step, ad: AdNode) { x.CreateAd? && x.localId == ad.id }

  /** A create among the ad sets is of one of them, or of one of their ads. */
  ghost predicate IsInSets(x: Step, sets: seq<SetNode>) {
    && (x.CreateAdSet? ==> exists j :: 0 <= j < |sets| && IsSetOf(x, sets[j]))
    && (x.CreateAd? ==> exists j, k :: 0 <= j < |sets| && 0 <= k < |sets[j].ads| && IsAdIn(x, sets[j].ads[k]))
    && !x.CreateCampaign?
  }

  lemma {:induction false} AdCallsAreOfAds(ads: seq<AdNode>, n: nat, x: Step)
    requires x in AdCreates(ads, n)
    ensures x.CreateCreative? || (x.CreateAd? && exists k :: 0 <= k < |ads| && IsAdIn(x, ads[k]))
    decreases |ads|
  {
    if x in AdCreates(ads[1..], n + 2) {
      AdCallsAreOfAds(ads[1..], n + 2, x);
      if x.CreateAd? {
        var k :| 0 <= k < |ads[1..]| && IsAdIn(x, ads[1..][k]);
        assert IsAdIn(x, ads[k + 1]);
      }
    } else if x.CreateAd? {
      assert IsAdIn(x, ads[0]);
    }
  }

  lemma {:induction false} CallsAreOfSets(sets: seq<SetNode>, n: nat, x: Step)
    requires x in SetCreates(sets, n)
    ensures IsInSets(x, sets)
    decreases |sets|
  {
    if x in AdCreates(sets[0].ads, n + 1) {
      AdCallsAreOfAds(sets[0].ads, n + 1, x);
    } else if x in SetCreates(sets[1..], n + 1 + 2 * |sets[0].ads|) {
      CallsAreOfSets(sets[1..], n + 1 + 2 * |sets[0].ads|, x);
      if x.CreateAdSet? {
        var j :| 0 <= j < |sets[1..]| && IsSetOf(x, sets[1..][j]);
        assert IsSetOf(x, sets[j + 1]);
      } else if x.CreateAd? {
        var j, k :| 0 <= j < |sets[1..]| && 0 <= k < |sets[1..][j].ads| && IsAdIn(x, sets[1..][j].ads[k]);
        assert IsAdIn(x, sets[j + 1].ads[k]);
      }
    } else {
      assert IsSetOf(x, sets[0]);
    }
  }

  lemma {:induction false} ActivationsCreateNothing(t: Tree, x: Step)
    requires x in Activations(t)
    ensures x.Activate?
  {
    SetActivationsNumbered(t.sets, CreateCount(t) + 1);
  }

  // ---------- Main result ----------

  lemma AdSetIsAskedFor(c: Content, accounts: map<Id, Account>, cid: Id, sid: Id)
    requires cid in c.campaigns && IsAdSetOf(c, cid, sid)
    ensures AsksForAdSet(CurrentPlan(c, accounts, cid), c, accounts, cid, sid)
  {
    hide IsAdSetCall, AdInfosOf, SetCreates, AdSetInfosOf, CarriesSet;
    var b, t := BuildBundle(c, accounts, cid), Compile(BuildBundle(c, accounts, cid));
    var j := NodeOfAdSet(c, accounts, cid, sid);
    BundleIsComplete(c, accounts, cid);
    AdSetCallSays(c, b, b.adSets[j], c.campaigns[cid]);
    SetStepAt(t.sets, 1, j);
    var x := CreateAdSet(1 + Before(t.sets, j) + 1, t.sets[j].spec, t.sets[j].id);
    assert x in CurrentPlan(c, accounts, cid);
  }

  lemma AdIsAskedFor(c: Content, accounts: map<Id, Account>, cid: Id, sid: Id, aid: Id)
    requires cid in c.campaigns && IsAdOf(c, cid, sid, aid)
    ensures AsksForAd(CurrentPlan(c, accounts, cid), c, accounts, cid, aid)
  {
    hide IsCreativeCall, AdInfosOf, AdSetInfosOf, CarriesAd, Flatten, BuildBundle;
    BundleIsComplete(c, accounts, cid);
    BundleSources(c, accounts, cid);
    var b, t := BuildBundle(c, accounts, cid), Compile(BuildBundle(c, accounts, cid));
    var j := NodeOfAdSet(c, accounts, cid, sid);
    var k := NodeOfAd(c, b, b.adSets[j], sid, aid);
    CreativeCallSays(c, b, b.adSets[j].ads[k]);
    AdColumns(c, b, b.adSets[j].ads[k]);
    var i := AdPairAt(t, j, k);
  }

  /** The creative of an ad and the ad itself, next to each other in the plan. */
  lemma AdPairAt(t: Tree, j: nat, k: nat) returns (i: nat)
    requires j < |t.sets| && k < |t.sets[j].ads|
    ensures i + 1 < |Flatten(t)|
    ensures var ad, p := t.sets[j].ads[k], Flatten(t);
      && p[i].CreateCreative? && p[i].creativeSpec == ad.creative && p[i].localId == ad.creativeRef
      && p[i + 1].CreateAd? && p[i + 1].adSpec == ad.ad && p[i + 1].localId == ad.id
  {
    hide SetCreates, AdCreates, Activations;
    var before := Before(t.sets, j);
    AdStepsAt(t.sets[j].ads, before + 2, k);
    AdCallsAt(t.sets, 1, j, 2 * k);
    AdCallsAt(t.sets, 1, j, 2 * k + 1);
    i := 2 + before + 2 * k;
    assert Flatten(t)[i] == SetCreates(t.sets, 1)[i - 1] && Flatten(t)[i + 1] == SetCreates(t.sets, 1)[i];
  }

  /** Page and pixel of a bundle are those of the client's account. */
  lemma BundleSources(c: Content, accounts: map<Id, Account>, cid: Id)
    requires cid in c.campaigns
    ensures var b, client := BuildBundle(c, accounts, cid), c.campaigns[cid].clientId;
      b.pageId == PageOf(accounts, client) && b.pixelId == PixelOf(accounts, client) && b.igAccountId == None
  {
    hide AdSetInfosOf;
  }

  lemma AdColumns(c: Content, b: Bundle, ad: AdInfo)
    requires CarriesAd(c, ad)
    ensures AdNodeOf(b, ad).id == ad.id && AdNodeOf(b, ad).ad == AdSpec(c.ads[ad.id].name, Paused)
    ensures AdNodeOf(b, ad).creativeRef == c.ads[ad.id].creativeId.GetOr(ad.id) && AdNodeOf(b, ad).creative == CreativeSpecOf(b, ad)
  {
  }

  lemma NothingElseIsAskedFor(c: Content, accounts: map<Id, Account>, cid: Id, x: Step)
    requires cid in c.campaigns && x in CurrentPlan(c, accounts, cid)
    ensures x.CreateCampaign? ==> x == CurrentPlan(c, accounts, cid)[0]
    ensures x.CreateAdSet? ==> IsAdSetOf(c, cid, x.localId)
    ensures x.CreateAd? ==> exists sid :: IsAdOf(c, cid, sid, x.localId)
  {
    hide AdInfosOf, AdSetInfosOf, SetCreates, CarriesSet, CarriesAd;
    var b, t := BuildBundle(c, accounts, cid), Compile(BuildBundle(c, accounts, cid));
    if x in Activations(t) {
      ActivationsCreateNothing(t, x);
    } else if x in SetCreates(t.sets, 1) {
      CallsAreOfSets(t.sets, 1, x);
      if x.CreateAdSet? {
        var j :| 0 <= j < |t.sets| && IsSetOf(x, t.sets[j]);
        SetOfNode(c, accounts, cid, j);
      } else if x.CreateAd? {
        var j, k :| 0 <= j < |t.sets| && 0 <= k < |t.sets[j].ads| && IsAdIn(x, t.sets[j].ads[k]);
        RowOfNode(c, accounts, cid, j, k);
      }
    }
  }

  lemma SetOfNode(c: Content, accounts: map<Id, Account>, cid: Id, j: nat)
    requires cid in c.campaigns && j < |Compile(BuildBundle(c, accounts, cid)).sets|
    ensures IsAdSetOf(c, cid, Compile(BuildBundle(c, accounts, cid)).sets[j].id)
  {
    hide AdInfosOf;
    AdSetsOfHold(c, c.adSetScan, cid);
    var s := BuildBundle(c, accounts, cid).adSets[j];
    assert s.id == AdSetsOf(c, c.adSetScan, cid)[j];
  }

  /**
   * The plan put before the approvers asks Meta for the campaign first, for every ad set row and every
   * ad row of it as that row stands, and for no other campaign, ad set or ad.
   */
  lemma PlanAsksForRows(c: Content, accounts: map<Id, Account>, cid: Id)
    requires cid in c.campaigns
    ensures var p := CurrentPlan(c, accounts, cid);
      && p != [] && p[0].CreateCampaign? && p[0].localId == cid && IsCampaignCall(c.campaigns[cid], p[0].campaignSpec)
      && (forall sid :: IsAdSetOf(c, cid, sid) ==> AsksForAdSet(p, c, accounts, cid, sid))
      && (forall sid, aid :: IsAdOf(c, cid, sid, aid) ==> AsksForAd(p, c, accounts, cid, aid))
      && (forall x :: x in p ==>
            && (x.CreateCampaign? ==> x == p[0]) && (x.CreateAdSet? ==> IsAdSetOf(c, cid, x.localId))
            && (x.CreateAd? ==> exists sid :: IsAdOf(c, cid, sid, x.localId)))
  {
    hide IsCampaignCall, AsksForAdSet, AsksForAd, AdSetInfosOf, SetCreates;
    var p := CurrentPlan(c, accounts, cid);
    CampaignCallSays(c, accounts, cid);
    assert p[0] == CreateCampaign(1, Compile(BuildBundle(c, accounts, cid)).spec, cid);
    forall sid | IsAdSetOf(c, cid, sid) ensures AsksForAdSet(p, c, accounts, cid, sid) { AdSetIsAskedFor(c, accounts, cid, sid); }
    forall sid, aid | IsAdOf(c, cid, sid, aid) ensures AsksForAd(p, c, accounts, cid, aid) { AdIsAskedFor(c, accounts, cid, sid, aid); }
    forall x | x in p
      ensures x.CreateCampaign? ==> x == p[0]
      ensures x.CreateAdSet? ==> IsAdSetOf(c, cid, x.localId)
      ensures x.CreateAd? ==> exists sid :: IsAdOf(c, cid, sid, x.localId)
    {
      NothingElseIsAskedFor(c, accounts, cid, x);
    }
  }
}
