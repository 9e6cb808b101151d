/**
 * What publishing is for: the campaign tree is copied to Meta. `CopyTree` builds that copy
 * directly, parent by parent, with no plan and no idMap; running the flat plan refines it.
 */
module TreeCopy {
  import opened Core
  import opened PublishPlan
  import opened MetaStore
  import opened Rows
  import opened PlanRun

  // ---------- The reference: a direct structural copy ----------

  /** Whether the ad's row names a creative; only then is the new creative linked. */
  predicate HasCreative(c: Content, aid: Id) { aid in c.ads && c.ads[aid].creativeId.Some? }

  function CopyAds(m: Meta, sid: MetaId, ads: seq<AdNode>, c: Content, status: EntityStatus): Meta
    decreases |ads|
  {
    if ads == [] then m
    else
      var withCreative := Add(m, CreativeType, CreativeEntity(ads[0].creative));
      var creative := if HasCreative(c, ads[0].id) then Some(NextId(m, CreativeType)) else None;
      var withAd := Add(withCreative, AdType, AdEntity(ads[0].ad.name, Some(sid), creative, status));
      CopyAds(withAd, sid, ads[1..], c, status)
  }

  function CopySets(m: Meta, campaign: MetaId, sets: seq<SetNode>, c: Content, status: EntityStatus): Meta
    decreases |sets|
  {
    if sets == [] then m
    else
      var withSet := Add(m, AdSetType, AdSetEntity(sets[0].spec, Some(campaign), status));
      CopySets(CopyAds(withSet, NextId(m, AdSetType), sets[0].ads, c, status), campaign, sets[1..], c, status)
  }

  function CopyTree(m: Meta, t: Tree, c: Content, status: EntityStatus): Meta {
    CopySets(Add(m, CampaignType, CampaignEntity(t.spec, status)), NextId(m, CampaignType), t.sets, c, status)
  }

  // ---------- What publishing asks of the bundle and its rows ----------

  predicate PlainId(id: Id) { ':' !in id }

  ghost predicate FreshAds(ads: seq<AdNode>, used: set<Id>)
    decreases |ads|
  {
    ads == [] || (ads[0].id !in used && PlainId(ads[0].id) && FreshAds(ads[1..], used + {ads[0].id}))
  }

  ghost function AdIds(ads: seq<AdNode>): set<Id>
    decreases |ads|
  {
    if ads == [] then {} else {ads[0].id} + AdIds(ads[1..])
  }

  ghost predicate FreshSets(sets: seq<SetNode>, used: set<Id>)
    decreases |sets|
  {
    sets == [] ||
    (&& sets[0].id !in used && PlainId(sets[0].id)
     && FreshAds(sets[0].ads, used + {sets[0].id})
     && FreshSets(sets[1..], used + {sets[0].id} + AdIds(sets[0].ads)))
  }

  /** Local ids are pairwise different (and, like every cuid, hold no colon). */
  ghost predicate UniqueIds(t: Tree) { PlainId(t.id) && FreshSets(t.sets, {t.id}) }

  /** The ad's row places it under its ad set and names the creative of its node. */
  ghost predicate RowMatches(c: Content, setId: Id, ad: AdNode) {
    && ad.id in c.ads
    && c.ads[ad.id].adSetId == Some(setId)
    && ad.creativeRef == c.ads[ad.id].creativeId.GetOr(ad.id)
  }

  ghost predicate RowsMatch(c: Content, sets: seq<SetNode>) {
    forall s, ad :: s in sets && ad in s.ads ==> RowMatches(c, s.id, ad)
  }

  // ---------- Facts about the loop state ----------

  /** The loop never touches the columns that say where an ad belongs. */
  ghost predicate SameLinks(c: Content, c': Content) {
    && c.ads.Keys == c'.ads.Keys
    && forall a :: a in c.ads ==> c.ads[a].adSetId == c'.ads[a].adSetId && c.ads[a].creativeId == c'.ads[a].creativeId
  }

  ghost predicate AllPlain(ids: set<Id>) { forall id :: id in ids ==> PlainId(id) }

  /** Entries under `used` ids are kept. */
  ghost predicate Keeps(before: map<string, MetaId>, after: map<string, MetaId>, used: set<Id>) {
    forall id :: id in used && id in before ==> id in after && after[id] == before[id]
  }

  /** idMap knows the ads created from counter c on: creative, ad, creative, ad, ... */
  ghost predicate BoundAds(idMap: map<string, MetaId>, c: nat, ads: seq<AdNode>)
    decreases |ads|
  {
    ads == [] ||
    (&& ads[0].id in idMap && idMap[ads[0].id] == MetaId(AdType, c + 2)
     && BoundAds(idMap, c + 2, ads[1..]))
  }

  ghost predicate BoundSets(idMap: map<string, MetaId>, c: nat, sets: seq<SetNode>)
    decreases |sets|
  {
    sets == [] ||
    (&& sets[0].id in idMap && idMap[sets[0].id] == MetaId(AdSetType, c + 1)
     && BoundAds(idMap, c + 1, sets[0].ads)
     && BoundSets(idMap, c + 1 + 2 * |sets[0].ads|, sets[1..]))
  }

  lemma {:induction false} BoundAdsKept(before: map<string, MetaId>, after: map<string, MetaId>, c: nat, ads: seq<AdNode>, used: set<Id>)
    requires BoundAds(before, c, ads) && Keeps(before, after, used) && AdIds(ads) <= used
    ensures BoundAds(after, c, ads)
    decreases |ads|
  {
    if ads != [] { BoundAdsKept(before, after, c + 2, ads[1..], used); }
  }

  lemma CreativeKeyIsNotPlain(ref: Id)
    ensures !PlainId(CreativeKey(ref))
  {
    assert CreativeKey(ref)[8] == ':';
  }

  // ---------- The create phase builds the paused copy ----------

  /** One ad: its creative, then the ad linked to it. */
  lemma RunOneAd(s: Run, job: Job, setId: Id, ad: AdNode, n: nat, used: set<Id>)
    returns (s': Run)
    requires setId in s.idMap && setId in used && AllPlain(used)
    requires ad.id !in used && PlainId(ad.id) && RowMatches(s.content, setId, ad)
    ensures s' == RunStep(RunStep(s, job, CreateCreative(n + 1, ad.creative, ad.creativeRef)), job, CreateAd(n + 2, ad.ad, ad.id))
    ensures s'.meta == CopyAds(s.meta, s.idMap[setId], [ad], s.content, Paused)
    ensures s'.meta.counter == s.meta.counter + 2
    ensures ad.id in s'.idMap && s'.idMap[ad.id] == MetaId(AdType, s.meta.counter + 2)
    ensures Keeps(s.idMap, s'.idMap, used) && SameLinks(s.content, s'.content)
  {
    CreativeKeyIsNotPlain(ad.creativeRef);
    var s1 := RunStep(s, job, CreateCreative(n + 1, ad.creative, ad.creativeRef));
    assert AdSetOf(s1, ad.id) == Some(s.idMap[setId]);
    s' := RunStep(s1, job, CreateAd(n + 2, ad.ad, ad.id));
    assert [ad][1..] == [];
  }

  lemma CopyAdsCons(m: Meta, sid: MetaId, ads: seq<AdNode>, c: Content, status: EntityStatus)
    requires ads != []
    ensures CopyAds(m, sid, ads, c, status) == CopyAds(CopyAds(m, sid, [ads[0]], c, status), sid, ads[1..], c, status)
  {
    assert [ads[0]][1..] == [];
  }

  lemma {:induction false} CopyAdsLinks(m: Meta, sid: MetaId, ads: seq<AdNode>, c: Content, c': Content, status: EntityStatus)
    requires SameLinks(c, c')
    ensures CopyAds(m, sid, ads, c, status) == CopyAds(m, sid, ads, c', status)
    decreases |ads|
  {
    if ads != [] {
      CopyAdsCons(m, sid, ads, c, status);
      CopyAdsCons(m, sid, ads, c', status);
      CopyAdsLinks(CopyAds(m, sid, [ads[0]], c, status), sid, ads[1..], c, c', status);
    }
  }

  lemma NoAds(s: Run, job: Job, n: nat, sid: MetaId, c: Content)
    ensures RunSteps(s, job, AdCreates([], n)) == s && CopyAds(s.meta, sid, [], c, Paused) == s.meta
  {
  }

  lemma AdCreatesRun(s: Run, job: Job, ads: seq<AdNode>, n: nat)
    requires ads != []
    ensures RunSteps(s, job, AdCreates(ads, n))
         == RunSteps(RunStep(RunStep(s, job, CreateCreative(n + 1, ads[0].creative, ads[0].creativeRef)),
                             job, CreateAd(n + 2, ads[0].ad, ads[0].id)),
                     job, AdCreates(ads[1..], n + 2))
  {
    RunPair(s, job, CreateCreative(n + 1, ads[0].creative, ads[0].creativeRef), CreateAd(n + 2, ads[0].ad, ads[0].id),
            AdCreates(ads[1..], n + 2));
  }

  lemma {:induction false} RunAdCreates(s: Run, job: Job, setId: Id, ads: seq<AdNode>, n: nat, used: set<Id>, c: Content)
    returns (s': Run)
    requires setId in s.idMap && setId in used && AllPlain(used)
    requires FreshAds(ads, used) && SameLinks(c, s.content)
    requires forall ad :: ad in ads ==> RowMatches(c, setId, ad)
    ensures s' == RunSteps(s, job, AdCreates(ads, n))
    ensures s'.meta == CopyAds(s.meta, s.idMap[setId], ads, c, Paused)
    ensures s'.meta.counter == s.meta.counter + 2 * |ads|
    ensures BoundAds(s'.idMap, s.meta.counter, ads)
    ensures Keeps(s.idMap, s'.idMap, used) && SameLinks(c, s'.content)
    decreases |ads|
  {
    hide RunStep, RunSteps, AdCreates, CopyAds;
    if ads == [] {
      s' := s;
      NoAds(s, job, n, s.idMap[setId], c);
    } else {
      var ad, rest := ads[0], ads[1..];
      assert ad in ads && forall x :: x in rest ==> x in ads;
      assert RowMatches(c, setId, ad);
      var s1 := RunOneAd(s, job, setId, ad, n, used);
      CopyAdsLinks(s.meta, s.idMap[setId], [ad], c, s.content, Paused);
      CopyAdsCons(s.meta, s.idMap[setId], ads, c, Paused);
      s' := RunAdCreates(s1, job, setId, rest, n + 2, used + {ad.id}, c);
      AdCreatesRun(s, job, ads, n);
      KeepsTrans(s.idMap, s1.idMap, s'.idMap, used, used + {ad.id});
    }
  }

  lemma RunPair(s: Run, job: Job, x: Step, y: Step, rest: Plan)
    ensures RunSteps(s, job, [x, y] + rest) == RunSteps(RunStep(RunStep(s, job, x), job, y), job, rest)
  {
    var p := [x, y] + rest;
    assert p[1..][0] == y && p[1..][1..] == rest;
  }

  lemma RunOne(s: Run, job: Job, x: Step, rest: Plan)
    ensures RunSteps(s, job, [x] + rest) == RunSteps(RunStep(s, job, x), job, rest)
  {
    assert ([x] + rest)[1..] == rest;
  }

  /** The ids of fresh ads are plain and new. */
  lemma {:induction false} FreshAdsArePlain(ads: seq<AdNode>, used: set<Id>)
    requires FreshAds(ads, used)
    ensures AllPlain(AdIds(ads)) && AdIds(ads) !! used
    decreases |ads|
  {
    if ads != [] { FreshAdsArePlain(ads[1..], used + {ads[0].id}); }
  }

  /** One ad set with its ads. */
  lemma RunOneSet(s: Run, job: Job, first: SetNode, n: nat, used: set<Id>, c: Content) returns (s': Run)
    requires job.campaignId in s.idMap && job.campaignId in used && AllPlain(used)
    requires first.id !in used && PlainId(first.id) && FreshAds(first.ads, used + {first.id})
    requires SameLinks(c, s.content) && forall ad :: ad in first.ads ==> RowMatches(c, first.id, ad)
    ensures s' == RunSteps(RunStep(s, job, CreateAdSet(n + 1, first.spec, first.id)), job, AdCreates(first.ads, n + 1))
    ensures s'.meta == CopySets(s.meta, s.idMap[job.campaignId], [first], c, Paused)
    ensures s'.meta.counter == s.meta.counter + 1 + 2 * |first.ads|
    ensures first.id in s'.idMap && s'.idMap[first.id] == MetaId(AdSetType, s.meta.counter + 1)
    ensures BoundAds(s'.idMap, s.meta.counter + 1, first.ads)
    ensures Keeps(s.idMap, s'.idMap, used) && SameLinks(c, s'.content)
  {
    var s1 := RunStep(s, job, CreateAdSet(n + 1, first.spec, first.id));
    assert s1.idMap[first.id] == MetaId(AdSetType, s.meta.counter + 1);
    s' := RunAdCreates(s1, job, first.id, first.ads, n + 1, used + {first.id}, c);
    KeepsTrans(s.idMap, s1.idMap, s'.idMap, used, used + {first.id});
    assert [first][1..] == [];
  }

  lemma CopySetsCons(m: Meta, campaign: MetaId, sets: seq<SetNode>, c: Content, status: EntityStatus)
    requires sets != []
    ensures CopySets(m, campaign, sets, c, status)
         == CopySets(CopySets(m, campaign, [sets[0]], c, status), campaign, sets[1..], c, status)
  {
    assert [sets[0]][1..] == [];
  }

  lemma SetCreatesRun(s: Run, job: Job, sets: seq<SetNode>, n: nat)
    requires sets != []
    ensures RunSteps(s, job, SetCreates(sets, n))
         == RunSteps(RunSteps(RunStep(s, job, CreateAdSet(n + 1, sets[0].spec, sets[0].id)), job, AdCreates(sets[0].ads, n + 1)),
                     job, SetCreates(sets[1..], n + 1 + 2 * |sets[0].ads|))
  {
    var x, p := CreateAdSet(n + 1, sets[0].spec, sets[0].id), AdCreates(sets[0].ads, n + 1);
    RunAppend(s, job, [x] + p, SetCreates(sets[1..], n + 1 + 2 * |sets[0].ads|));
    RunOne(s, job, x, p);
  }

  lemma KeepsTrans(a: map<string, MetaId>, b: map<string, MetaId>, c: map<string, MetaId>, used: set<Id>, more: set<Id>)
    requires Keeps(a, b, used) && Keeps(b, c, more) && used <= more
    ensures Keeps(a, c, used)
  {
  }

  lemma NoSets(s: Run, job: Job, n: nat, campaign: MetaId, c: Content)
    ensures RunSteps(s, job, SetCreates([], n)) == s && CopySets(s.meta, campaign, [], c, Paused) == s.meta
  {
  }

  lemma {:induction false} RunSetCreates(s: Run, job: Job, sets: seq<SetNode>, n: nat, used: set<Id>, c: Content)
    returns (s': Run)
    requires job.campaignId in s.idMap && job.campaignId in used && AllPlain(used)
    requires FreshSets(sets, used) && SameLinks(c, s.content) && RowsMatch(c, sets)
    ensures s' == RunSteps(s, job, SetCreates(sets, n))
    ensures s'.meta == CopySets(s.meta, s.idMap[job.campaignId], sets, c, Paused)
    ensures s'.meta.counter == s.meta.counter + |sets| + 2 * CountAds(sets)
    ensures BoundSets(s'.idMap, s.meta.counter, sets)
    ensures Keeps(s.idMap, s'.idMap, used)
    decreases |sets|
  {
    hide RunStep, RunSteps, SetCreates, CopyAds, CopySets, BoundAds;
    if sets == [] {
      s' := s;
      NoSets(s, job, n, s.idMap[job.campaignId], c);
    } else {
      var first, rest := sets[0], sets[1..];
      assert first in sets && forall x :: x in rest ==> x in sets;
      var s2 := RunOneSet(s, job, first, n, used, c);
      var used2 := used + {first.id} + AdIds(first.ads);
      FreshAdsArePlain(first.ads, used + {first.id});
      s' := RunSetCreates(s2, job, rest, n + 1 + 2 * |first.ads|, used2, c);
      SetCreatesRun(s, job, sets, n);
      BoundAdsKept(s2.idMap, s'.idMap, s.meta.counter + 1, first.ads, used2);
      KeepsTrans(s.idMap, s2.idMap, s'.idMap, used, used2);
      CopySetsCons(s.meta, s.idMap[job.campaignId], sets, c, Paused);
    }
  }

  /** After the creates: the paused copy, and an idMap that knows every new entity. */
  lemma RunCreates(m: Meta, content: Content, job: Job, t: Tree)
    requires job.campaignId == t.id && UniqueIds(t) && RowsMatch(content, t.sets)
    ensures var s := RunSteps(Run(m, map[], content), job, Creates(t));
      && s.meta == CopyTree(m, t, content, Paused)
      && s.meta.counter == m.counter + CreateCount(t)
      && t.id in s.idMap && s.idMap[t.id] == MetaId(CampaignType, m.counter + 1)
      && BoundSets(s.idMap, m.counter + 1, t.sets)
  {
    var s0 := Run(m, map[], content);
    var first := CreateCampaign(1, t.spec, t.id);
    var s1 := RunStep(s0, job, first);
    var s2 := RunSetCreates(s1, job, t.sets, 1, {t.id}, content);
    RunOne(s0, job, first, SetCreates(t.sets, 1));
  }
}
