/** approvals.service.ts, buildBundle: the campaign tree assembled from its draft rows. */
module BundleBuilder {
  import opened Core
  import opened PublishPlan
  import opened MetaStore
  import opened Rows
  import opened World
  import opened PlanRun
  import opened TreeCopy
  import opened PublishSafety

  /** The ad sets of a campaign, in scan order. */
  function AdSetsOf(c: Content, scan: seq<Id>, cid: Id): seq<Id> {
    if scan == [] then []
    else
      (if scan[0] in c.adSets && c.adSets[scan[0]].campaignId == cid then [scan[0]] else [])
      + AdSetsOf(c, scan[1..], cid)
  }

  /** The ads of an ad set, in scan order. */
  function AdsOf(c: Content, scan: seq<Id>, sid: Id): seq<Id> {
    if scan == [] then []
    else
      (if scan[0] in c.ads && c.ads[scan[0]].adSetId == Some(sid) then [scan[0]] else [])
      + AdsOf(c, scan[1..], sid)
  }

  function AdInfoOf(c: Content, aid: Id): AdInfo
    requires aid in c.ads
  {
    var ad := c.ads[aid];
    var creative := if ad.creativeId.Some? && ad.creativeId.value in c.creatives then Some(c.creatives[ad.creativeId.value]) else None;
    AdInfo(aid, ad.name, ad.creativeId,
           if creative.Some? then creative.value.name else ad.name,
           ad.primaryText, ad.headline, ad.description, ad.cta, ad.destinationUrl,
           if creative.Some? then creative.value.imageUrl else None)
  }

  lemma {:induction false} AdsOfHold(c: Content, scan: seq<Id>, sid: Id)
    ensures forall a :: a in AdsOf(c, scan, sid) ==> a in scan && a in c.ads && c.ads[a].adSetId == Some(sid)
    decreases |scan|
  {
    if scan != [] { AdsOfHold(c, scan[1..], sid); }
  }

  lemma {:induction false} AdSetsOfHold(c: Content, scan: seq<Id>, cid: Id)
    ensures forall s :: s in AdSetsOf(c, scan, cid) ==> s in scan && s in c.adSets && c.adSets[s].campaignId == cid
    decreases |scan|
  {
    if scan != [] { AdSetsOfHold(c, scan[1..], cid); }
  }

  function AdInfosOf(c: Content, sid: Id): seq<AdInfo> {
    AdsOfHold(c, c.adScan, sid);
    var ids := AdsOf(c, c.adScan, sid);
    seq(|ids|, i requires 0 <= i < |ids| => assert ids[i] in ids; AdInfoOf(c, ids[i]))
  }

  function AdSetInfoOf(c: Content, sid: Id): AdSetInfo
    requires sid in c.adSets
  {
    var s := c.adSets[sid];
    AdSetInfo(sid, s.name, s.optimizationGoal, s.billingEvent, s.budgetAmount, s.targeting, AdInfosOf(c, sid))
  }

  function AdSetInfosOf(c: Content, cid: Id): seq<AdSetInfo> {
    AdSetsOfHold(c, c.adSetScan, cid);
    var ids := AdSetsOf(c, c.adSetScan, cid);
    seq(|ids|, i requires 0 <= i < |ids| => assert ids[i] in ids; AdSetInfoOf(c, ids[i]))
  }

  function BuildBundle(c: Content, accounts: map<Id, Account>, cid: Id): Bundle
    requires cid in c.campaigns
  {
    var row := c.campaigns[cid];
    var account := if row.clientId in accounts then Some(accounts[row.clientId]) else None;
    Bundle(
      CampaignInfo(cid, row.name, row.goal, row.budgetType, row.budgetAmount, row.specialAdCategories, row.targetingDraft),
      if account.Some? then Some(account.value.accountId) else None,
      if account.Some? then account.value.pageId else None,
      None,
      if account.Some? then account.value.pixelId else None,
      AdSetInfosOf(c, cid))
  }

  /** The plan a publish of the campaign would run right now. */
  function CurrentPlan(c: Content, accounts: map<Id, Account>, cid: Id): Plan
    requires cid in c.campaigns
  {
    PlanOf(BuildBundle(c, accounts, cid))
  }

  // ---------- Bundles from consistent tables are publishable ----------

  ghost predicate NoDuplicates(s: seq<Id>) { forall i, j :: 0 <= i < j < |s| ==> s[i] != s[j] }

  /** Primary keys are unique across the three kinds and hold no colon (they are cuids). */
  ghost predicate KeysOk(c: Content) {
    && NoDuplicates(c.adSetScan) && NoDuplicates(c.adScan)
    && c.campaigns.Keys !! c.adSets.Keys && c.campaigns.Keys !! c.ads.Keys && c.adSets.Keys !! c.ads.Keys
    && (forall id :: id in c.campaigns.Keys + c.adSets.Keys + c.ads.Keys ==> PlainId(id))
  }

  lemma {:induction false} AdsOfDistinct(c: Content, scan: seq<Id>, sid: Id)
    requires NoDuplicates(scan)
    ensures NoDuplicates(AdsOf(c, scan, sid))
    decreases |scan|
  {
    if scan != [] {
      AdsOfDistinct(c, scan[1..], sid);
      AdsOfHold(c, scan[1..], sid);
      assert forall a :: a in AdsOf(c, scan[1..], sid) ==> a in scan[1..] && a != scan[0];
    }
  }

  lemma {:induction false} AdSetsOfDistinct(c: Content, scan: seq<Id>, cid: Id)
    requires NoDuplicates(scan)
    ensures NoDuplicates(AdSetsOf(c, scan, cid))
    decreases |scan|
  {
    if scan != [] {
      AdSetsOfDistinct(c, scan[1..], cid);
      AdSetsOfHold(c, scan[1..], cid);
      assert forall a :: a in AdSetsOf(c, scan[1..], cid) ==> a in scan[1..] && a != scan[0];
    }
  }

  /** A node list with distinct ids, none of them used, is fresh. */
  lemma {:induction false} DistinctAdsAreFresh(ads: seq<AdNode>, used: set<Id>)
    requires forall i, j :: 0 <= i < j < |ads| ==> ads[i].id != ads[j].id
    requires forall i :: 0 <= i < |ads| ==> ads[i].id !in used && PlainId(ads[i].id)
    ensures FreshAds(ads, used)
    decreases |ads|
  {
    if ads != [] { DistinctAdsAreFresh(ads[1..], used + {ads[0].id}); }
  }

  lemma {:induction false} AdIdsAre(ads: seq<AdNode>)
    ensures forall id :: id in AdIds(ads) <==> exists i :: 0 <= i < |ads| && ads[i].id == id
    decreases |ads|
  {
    if ads != [] {
      AdIdsAre(ads[1..]);
      forall id ensures id in AdIds(ads) <==> exists i :: 0 <= i < |ads| && ads[i].id == id {
        if i :| 0 <= i < |ads| && ads[i].id == id && i > 0 { assert ads[1..][i - 1].id == id; }
        if i :| 0 <= i < |ads[1..]| && ads[1..][i].id == id { assert ads[i + 1].id == id; }
      }
    }
  }

  /** The ad set node built from an ad-set row. */
  ghost predicate NodeOfRow(c: Content, s: SetNode) {
    && s.id in c.adSets
    && (forall i, j :: 0 <= i < j < |s.ads| ==> s.ads[i].id != s.ads[j].id)
    && (forall i :: 0 <= i < |s.ads| ==> RowMatches(c, s.id, s.ads[i]))
  }

  lemma NodeComesFromRow(c: Content, b: Bundle, sid: Id)
    requires KeysOk(c) && sid in c.adSets
    ensures NodeOfRow(c, SetNodeOf(b, AdSetInfoOf(c, sid)))
  {
    var s := SetNodeOf(b, AdSetInfoOf(c, sid));
    var ids := AdsOf(c, c.adScan, sid);
    AdsOfHold(c, c.adScan, sid);
    AdsOfDistinct(c, c.adScan, sid);
    forall i | 0 <= i < |s.ads| ensures s.ads[i].id == ids[i] && RowMatches(c, sid, s.ads[i]) {
      assert ids[i] in ids;
    }
  }

  lemma NodesComeFromRows(c: Content, accounts: map<Id, Account>, cid: Id, k: nat)
    requires KeysOk(c) && cid in c.campaigns
    requires k < |Compile(BuildBundle(c, accounts, cid)).sets|
    ensures NodeOfRow(c, Compile(BuildBundle(c, accounts, cid)).sets[k])
    ensures k < |AdSetsOf(c, c.adSetScan, cid)|
    ensures Compile(BuildBundle(c, accounts, cid)).sets[k].id == AdSetsOf(c, c.adSetScan, cid)[k]
  {
    hide AdSetsOf, NodeOfRow, KeysOk;
    AdSetsOfHold(c, c.adSetScan, cid);
    var sid := AdSetsOf(c, c.adSetScan, cid)[k];
    assert sid in AdSetsOf(c, c.adSetScan, cid);
    NodeComesFromRow(c, BuildBundle(c, accounts, cid), sid);
  }

  /** Ads already used belong to ad sets already used. */
  ghost predicate UsedBy(c: Content, cid: Id, used: set<Id>) {
    forall id :: id in used ==>
      id == cid || id in c.adSets || (id in c.ads && c.ads[id].adSetId.Some? && c.ads[id].adSetId.value in used)
  }

  lemma {:induction false} RowNodesAreFresh(c: Content, cid: Id, sets: seq<SetNode>, used: set<Id>)
    requires KeysOk(c) && cid in c.campaigns && UsedBy(c, cid, used)
    requires forall k :: 0 <= k < |sets| ==> NodeOfRow(c, sets[k]) && sets[k].id !in used
    requires forall i, j :: 0 <= i < j < |sets| ==> sets[i].id != sets[j].id
    ensures FreshSets(sets, used)
    decreases |sets|
  {
    if sets != [] {
      var s := sets[0];
      assert NodeOfRow(c, s);
      forall i | 0 <= i < |s.ads| ensures s.ads[i].id !in used + {s.id} && PlainId(s.ads[i].id) {
        assert RowMatches(c, s.id, s.ads[i]);
      }
      DistinctAdsAreFresh(s.ads, used + {s.id});
      AdIdsAre(s.ads);
      var used' := used + {s.id} + AdIds(s.ads);
      forall id | id in AdIds(s.ads) ensures id in c.ads && c.ads[id].adSetId == Some(s.id) {
        var i :| 0 <= i < |s.ads| && s.ads[i].id == id;
        assert RowMatches(c, s.id, s.ads[i]);
      }
      RowNodesAreFresh(c, cid, sets[1..], used');
    }
  }

  /** Whatever the drafts hold, the bundle built from them meets what publishing needs. */
  lemma BundleIsPublishable(c: Content, accounts: map<Id, Account>, cid: Id, m: Meta, account: Id)
    requires KeysOk(c) && cid in c.campaigns && Numbered(m)
    ensures Publishable(m, c, Job(cid, account), Compile(BuildBundle(c, accounts, cid)))
  {
    var t := Compile(BuildBundle(c, accounts, cid));
    AdSetsOfDistinct(c, c.adSetScan, cid);
    forall k | 0 <= k < |t.sets|
      ensures NodeOfRow(c, t.sets[k]) && k < |AdSetsOf(c, c.adSetScan, cid)| && t.sets[k].id == AdSetsOf(c, c.adSetScan, cid)[k]
    {
      NodesComeFromRows(c, accounts, cid, k);
    }
    RowNodesAreFresh(c, cid, t.sets, {cid});
  }

  // ---------- Nothing is left out, nothing is mixed up ----------

  /** Exactly the ads of the ad set. */
  lemma {:induction false} AdsOfIff(c: Content, scan: seq<Id>, sid: Id, a: Id)
    ensures a in AdsOf(c, scan, sid) <==> a in scan && a in c.ads && c.ads[a].adSetId == Some(sid)
    decreases |scan|
  {
    if scan != [] { AdsOfIff(c, scan[1..], sid, a); }
  }

  lemma {:induction false} AdSetsOfIff(c: Content, scan: seq<Id>, cid: Id, s: Id)
    ensures s in AdSetsOf(c, scan, cid) <==> s in scan && s in c.adSets && c.adSets[s].campaignId == cid
    decreases |scan|
  {
    if scan != [] { AdSetsOfIff(c, scan[1..], cid, s); }
  }

  /** Rising places in the scan that `ids` are read from. */
  ghost predicate ReadFrom(ids: seq<Id>, scan: seq<Id>, at: seq<nat>) {
    && |at| == |ids|
    && (forall i :: 0 <= i < |at| ==> at[i] < |scan| && ids[i] == scan[at[i]])
    && (forall i, j :: 0 <= i < j < |at| ==> at[i] < at[j])
  }

  function Shifted(at: seq<nat>): seq<nat> { seq(|at|, i requires 0 <= i < |at| => at[i] + 1) }

  lemma ReadFromLonger(ids: seq<Id>, scan: seq<Id>, at: seq<nat>)
    requires scan != [] && ReadFrom(ids, scan[1..], at)
    ensures ReadFrom(ids, scan, Shifted(at)) && ReadFrom([scan[0]] + ids, scan, [0] + Shifted(at))
  {
  }

  /** Ads and ad sets come in scan order. */
  lemma {:induction false} AdsOfInOrder(c: Content, scan: seq<Id>, sid: Id) returns (at: seq<nat>)
    ensures ReadFrom(AdsOf(c, scan, sid), scan, at)
    decreases |scan|
  {
    hide ReadFrom;
    if scan == [] {
      at := [];
      NothingRead();
    } else {
      var rest := AdsOfInOrder(c, scan[1..], sid);
      ReadFromLonger(AdsOf(c, scan[1..], sid), scan, rest);
      at := if scan[0] in c.ads && c.ads[scan[0]].adSetId == Some(sid) then [0] + Shifted(rest) else Shifted(rest);
      assert [] + AdsOf(c, scan[1..], sid) == AdsOf(c, scan[1..], sid);
    }
  }

  lemma {:induction false} AdSetsOfInOrder(c: Content, scan: seq<Id>, cid: Id) returns (at: seq<nat>)
    ensures ReadFrom(AdSetsOf(c, scan, cid), scan, at)
    decreases |scan|
  {
    hide ReadFrom;
    if scan == [] {
      at := [];
      NothingRead();
    } else {
      var rest := AdSetsOfInOrder(c, scan[1..], cid);
      ReadFromLonger(AdSetsOf(c, scan[1..], cid), scan, rest);
      at := if scan[0] in c.adSets && c.adSets[scan[0]].campaignId == cid then [0] + Shifted(rest) else Shifted(rest);
      assert [] + AdSetsOf(c, scan[1..], cid) == AdSetsOf(c, scan[1..], cid);
    }
  }

  lemma NothingRead()
    ensures ReadFrom([], [], [])
  {
  }

  /** The ad of a bundle carries the columns of its own row, and its creative's name and image. */
  ghost predicate CarriesAd(c: Content, ad: AdInfo) {
    && ad.id in c.ads
    && var row := c.ads[ad.id];
    && ad.name == row.name && ad.creativeId == row.creativeId
    && ad.primaryText == row.primaryText && ad.headline == row.headline && ad.description == row.description
    && ad.cta == row.cta && ad.destinationUrl == row.destinationUrl
    && if row.creativeId.Some? && row.creativeId.value in c.creatives then
         var creative := c.creatives[row.creativeId.value];
         ad.creativeName == creative.name && ad.imageUrl == creative.imageUrl
       else ad.creativeName == row.name && ad.imageUrl == None
  }

  ghost predicate CarriesSet(c: Content, s: AdSetInfo) {
    && s.id in c.adSets
    && var row := c.adSets[s.id];
    && s.name == row.name && s.optimizationGoal == row.optimizationGoal && s.billingEvent == row.billingEvent
    && s.budgetAmount == row.budgetAmount && s.targeting == row.targeting
  }

  /** The ads of an ad set in a bundle: each carries its row, and each of the ad set's rows is there, in scan order. */
  lemma AdsAreCarried(c: Content, sid: Id)
    ensures var ads := AdInfosOf(c, sid);
      && (forall k :: 0 <= k < |ads| ==> CarriesAd(c, ads[k]) && c.ads[ads[k].id].adSetId == Some(sid))
      && (forall a :: a in c.adScan && a in c.ads && c.ads[a].adSetId == Some(sid) ==> exists k :: 0 <= k < |ads| && ads[k].id == a)
  {
    var ids, ads := AdsOf(c, c.adScan, sid), AdInfosOf(c, sid);
    forall a ensures a in ids <==> a in c.adScan && a in c.ads && c.ads[a].adSetId == Some(sid) { AdsOfIff(c, c.adScan, sid, a); }
    forall k | 0 <= k < |ads| ensures CarriesAd(c, ads[k]) && ads[k].id == ids[k] && c.ads[ads[k].id].adSetId == Some(sid) {
      assert ids[k] in ids;
    }
    forall a | a in c.adScan && a in c.ads && c.ads[a].adSetId == Some(sid) ensures exists k :: 0 <= k < |ads| && ads[k].id == a {
      var k :| 0 <= k < |ids| && ids[k] == a;
      assert ads[k].id == a;
    }
  }

  /** A bundle holds every ad set row of its campaign and every ad row below it, with their own columns, and no others. */
  lemma BundleIsComplete(c: Content, accounts: map<Id, Account>, cid: Id)
    requires cid in c.campaigns
    ensures var b := BuildBundle(c, accounts, cid);
      && b.campaign.id == cid && b.campaign.name == c.campaigns[cid].name && b.campaign.goal == c.campaigns[cid].goal
      && b.campaign.budgetType == c.campaigns[cid].budgetType && b.campaign.budgetAmount == c.campaigns[cid].budgetAmount
      && b.campaign.specialAdCategories == c.campaigns[cid].specialAdCategories
      && b.campaign.targetingDraft == c.campaigns[cid].targetingDraft
      && (forall i :: 0 <= i < |b.adSets| ==>
            && CarriesSet(c, b.adSets[i]) && c.adSets[b.adSets[i].id].campaignId == cid
            && b.adSets[i].ads == AdInfosOf(c, b.adSets[i].id))
      && (forall s :: s in c.adSetScan && s in c.adSets && c.adSets[s].campaignId == cid ==>
            exists i :: 0 <= i < |b.adSets| && b.adSets[i].id == s)
  {
    hide AdInfosOf;
    var b, ids := BuildBundle(c, accounts, cid), AdSetsOf(c, c.adSetScan, cid);
    forall s ensures s in ids <==> s in c.adSetScan && s in c.adSets && c.adSets[s].campaignId == cid { AdSetsOfIff(c, c.adSetScan, cid, s); }
    forall i | 0 <= i < |b.adSets|
      ensures b.adSets[i].id == ids[i] && CarriesSet(c, b.adSets[i]) && c.adSets[b.adSets[i].id].campaignId == cid
      ensures b.adSets[i].ads == AdInfosOf(c, b.adSets[i].id)
    {
      assert ids[i] in ids;
    }
    forall s | s in c.adSetScan && s in c.adSets && c.adSets[s].campaignId == cid
      ensures exists i :: 0 <= i < |b.adSets| && b.adSets[i].id == s
    {
      var i :| 0 <= i < |ids| && ids[i] == s;
      assert b.adSets[i].id == s;
    }
  }
}
