/**
 * What a publish writes back: the id of every entity it creates ends up in the row that the entity
 * was made from, so that rows and live entities name each other.
 */
module LiveRows {
  import opened Core
  import opened PublishPlan
  import opened PlanShape
  import opened MetaStore
  import opened Rows
  import opened PlanRun
  import opened TreeCopy
  import opened PublishSafety

  // ---------- Rows and idMap learn the same ids ----------

  /** The row of an executed step holds the id that idMap has for it. */
  ghost predicate Follows(s: Run, job: Job, step: Step) {
    match step
    case CreateCampaign(_, _, id) =>
      id in s.idMap
      && (s.idMap[id].kind == CampaignType && job.campaignId in s.content.campaigns ==>
            var row := s.content.campaigns[job.campaignId];
            row.metaCampaignId == Some(s.idMap[id]) && row.adAccountId == Some(job.accountId))
    case CreateAdSet(_, _, id) =>
      id in s.idMap
      && (s.idMap[id].kind == AdSetType && id in s.content.adSets ==>
            s.content.adSets[id].metaAdSetId == Some(s.idMap[id]) && s.content.adSets[id].published)
    case CreateAd(_, _, id) =>
      id in s.idMap
      && (s.idMap[id].kind == AdType && id in s.content.ads ==>
            s.content.ads[id].metaAdId == Some(s.idMap[id]) && s.content.ads[id].published)
    case CreateCreative(_, _, ref) =>
      CreativeKey(ref) in s.idMap
      && (s.idMap[CreativeKey(ref)].kind == CreativeType && ref in s.content.creatives ==>
            s.content.creatives[ref].metaCreativeId == Some(s.idMap[CreativeKey(ref)]))
    case Activate(_, _, _) => true
  }

  lemma CreativeKeyIsOneToOne(a: Id, b: Id)
    ensures CreativeKey(a) == CreativeKey(b) ==> a == b
  {
    assert CreativeKey(a)[9..] == a && CreativeKey(b)[9..] == b;
  }

  lemma StepFollows(s: Run, job: Job, step: Step, other: Step)
    requires CountsCampaign(job, step)
    ensures Follows(RunStep(s, job, step), job, step)
    ensures Follows(s, job, other) && CountsCampaign(job, other) ==> Follows(RunStep(s, job, step), job, other)
  {
    if step.CreateCreative? && other.CreateCreative? { CreativeKeyIsOneToOne(step.localId, other.localId); }
  }

  /** A plan creates the campaign it is for. */
  predicate CountsCampaign(job: Job, step: Step) { step.CreateCampaign? ==> step.localId == job.campaignId }

  lemma {:induction false} RunFollows(s: Run, job: Job, plan: Plan, done: set<Step>)
    requires forall x :: x in plan ==> CountsCampaign(job, x)
    requires forall x :: x in done ==> CountsCampaign(job, x) && Follows(s, job, x)
    ensures forall x :: x in done || x in plan ==> Follows(RunSteps(s, job, plan), job, x)
    decreases |plan|
  {
    hide Follows, RunStep;
    if plan != [] {
      var s1 := RunStep(s, job, plan[0]);
      StepFollows(s, job, plan[0], plan[0]);
      forall x | x in done ensures Follows(s1, job, x) { StepFollows(s, job, plan[0], x); }
      RunFollows(s1, job, plan[1..], done + {plan[0]});
    }
  }

  // ---------- The other columns stay ----------

  ghost predicate SameDrafts(c: Content, d: Content) {
    && d.adSets.Keys == c.adSets.Keys && d.ads.Keys == c.ads.Keys && d.creatives.Keys == c.creatives.Keys
    && d.adSetScan == c.adSetScan && d.adScan == c.adScan
    && (forall id :: id in c.adSets ==>
          d.adSets[id] == c.adSets[id].(metaAdSetId := d.adSets[id].metaAdSetId, published := d.adSets[id].published))
    && (forall id :: id in c.ads ==>
          d.ads[id] == c.ads[id].(metaAdId := d.ads[id].metaAdId, published := d.ads[id].published))
    && (forall id :: id in c.creatives ==>
          d.creatives[id] == c.creatives[id].(metaCreativeId := d.creatives[id].metaCreativeId))
  }

  lemma StepKeepsDrafts(s: Run, job: Job, step: Step)
    ensures SameDrafts(s.content, RunStep(s, job, step).content) && SameRows(s.content, RunStep(s, job, step).content)
  {
    hide Call, Remember, SameDrafts, SameRows, WriteCampaignMeta, WriteAdSetMeta, WriteCreativeMeta, WriteAdMeta, NextId;
    var c := s.content;
    match step
    case CreateCampaign(_, _, _) => CampaignWriteKeeps(c, job.campaignId, NextId(s.meta, CampaignType), job.accountId);
    case CreateAdSet(_, _, id) => AdSetWriteKeeps(c, id, NextId(s.meta, AdSetType));
    case CreateCreative(_, _, ref) => CreativeWriteKeeps(c, ref, NextId(s.meta, CreativeType));
    case CreateAd(_, _, id) => AdWriteKeeps(c, id, NextId(s.meta, AdType));
    case Activate(_, _, _) => NoWriteKeeps(c);
  }

  lemma CampaignWriteKeeps(c: Content, cid: Id, id: MetaId, account: Id)
    ensures var d := WriteCampaignMeta(c, cid, id, account); SameDrafts(c, d) && SameRows(c, d)
  {
  }

  lemma AdSetWriteKeeps(c: Content, sid: Id, id: MetaId)
    ensures var d := WriteAdSetMeta(c, sid, id); SameDrafts(c, d) && SameRows(c, d)
  {
  }

  lemma CreativeWriteKeeps(c: Content, ref: Id, id: MetaId)
    ensures var d := WriteCreativeMeta(c, ref, id); SameDrafts(c, d) && SameRows(c, d)
  {
  }

  lemma AdWriteKeeps(c: Content, aid: Id, id: MetaId)
    ensures var d := WriteAdMeta(c, aid, id); SameDrafts(c, d) && SameRows(c, d)
  {
  }

  lemma NoWriteKeeps(c: Content)
    ensures SameDrafts(c, c) && SameRows(c, c)
  {
  }

  lemma SameDraftsTrans(a: Content, b: Content, c: Content)
    requires SameDrafts(a, b) && SameDrafts(b, c) && SameRows(a, b) && SameRows(b, c)
    ensures SameDrafts(a, c) && SameRows(a, c)
  {
  }

  lemma {:induction false} RunKeepsDrafts(s: Run, job: Job, plan: Plan)
    ensures SameDrafts(s.content, RunSteps(s, job, plan).content) && SameRows(s.content, RunSteps(s, job, plan).content)
    decreases |plan|
  {
    if plan != [] {
      var s1 := RunStep(s, job, plan[0]);
      StepKeepsDrafts(s, job, plan[0]);
      RunKeepsDrafts(s1, job, plan[1..]);
      SameDraftsTrans(s.content, s1.content, RunSteps(s, job, plan).content);
    }
  }

  // ---------- Creatives ----------

  /** idMap's creative for ref is new on Meta and shows what one of the executed steps asked for. */
  ghost predicate CreativeShown(m: Meta, s: Run, done: Plan, ref: Id) {
    CreativeKey(ref) in s.idMap ==>
      var id := s.idMap[CreativeKey(ref)];
      && id.kind == CreativeType && id in s.meta.entities && m.counter < id.n
      && exists x :: x in done && x.CreateCreative? && x.localId == ref && s.meta.entities[id] == CreativeEntity(x.creativeSpec)
  }

  predicate PlainStep(step: Step) { step.CreateCreative? || step.Activate? || PlainId(step.localId) }

  lemma StepShows(m: Meta, s: Run, job: Job, done: Plan, step: Step, ref: Id)
    requires Numbered(s.meta) && m.counter <= s.meta.counter && PlainStep(step) && !step.Activate?
    requires CreativeShown(m, s, done, ref)
    ensures CreativeShown(m, RunStep(s, job, step), done + [step], ref)
    ensures Numbered(RunStep(s, job, step).meta) && m.counter <= RunStep(s, job, step).meta.counter
  {
    var s1, all := RunStep(s, job, step), done + [step];
    CreativeKeyIsNotPlain(ref);
    if step.CreateCreative? { CreativeKeyIsOneToOne(step.localId, ref); }
    if step.CreateCreative? && step.localId == ref {
      assert step in all && s1.meta.entities[s1.idMap[CreativeKey(ref)]] == CreativeEntity(step.creativeSpec);
    } else if CreativeKey(ref) in s.idMap {
      var id := s.idMap[CreativeKey(ref)];
      var x :| x in done && x.CreateCreative? && x.localId == ref && s.meta.entities[id] == CreativeEntity(x.creativeSpec);
      assert x in all && s1.meta.entities[id] == s.meta.entities[id];
    }
  }

  lemma {:induction false} CreatesShow(m: Meta, s: Run, job: Job, done: Plan, plan: Plan, ref: Id)
    requires Numbered(s.meta) && m.counter <= s.meta.counter && CreativeShown(m, s, done, ref)
    requires forall x :: x in plan ==> PlainStep(x) && !x.Activate?
    ensures CreativeShown(m, RunSteps(s, job, plan), done + plan, ref)
    decreases |plan|
  {
    hide CreativeShown, RunStep, Numbered;
    if plan == [] {
      assert done + plan == done;
    } else {
      StepShows(m, s, job, done, plan[0], ref);
      assert (done + [plan[0]]) + plan[1..] == done + plan;
      CreatesShow(m, RunStep(s, job, plan[0]), job, done + [plan[0]], plan[1..], ref);
    }
  }

  // ---------- Which steps there are ----------

  /** How many entities of the ad sets come before the j-th one. */
  function Before(sets: seq<SetNode>, j: nat): nat
    requires j <= |sets|
    decreases j
  {
    if j == 0 then 0 else 1 + 2 * |sets[0].ads| + Before(sets[1..], j - 1)
  }

  lemma {:induction false} AdStepsAt(ads: seq<AdNode>, n: nat, k: nat)
    requires k < |ads|
    ensures var p := AdCreates(ads, n);
      && 2 * k + 1 < |p| && p[2 * k] == CreateCreative(n + 2 * k + 1, ads[k].creative, ads[k].creativeRef)
      && p[2 * k + 1] == CreateAd(n + 2 * k + 2, ads[k].ad, ads[k].id)
    decreases k
  {
    if k > 0 { AdStepsAt(ads[1..], n + 2, k - 1); }
  }

  lemma {:induction false} SetStepAt(sets: seq<SetNode>, n: nat, j: nat)
    requires j < |sets|
    ensures CreateAdSet(n + Before(sets, j) + 1, sets[j].spec, sets[j].id) in SetCreates(sets, n)
    ensures forall x :: x in AdCreates(sets[j].ads, n + Before(sets, j) + 1) ==> x in SetCreates(sets, n)
    decreases j
  {
    if j > 0 { SetStepAt(sets[1..], n + 1 + 2 * |sets[0].ads|, j - 1); }
  }

  /** Every creative step is some ad's. */
  ghost predicate OfSomeAd(x: Step, sets: seq<SetNode>) {
    exists j, k :: 0 <= j < |sets| && 0 <= k < |sets[j].ads| && IsCreativeOf(x, sets[j].ads[k])
  }

  predicate IsCreativeOf(x: Step, ad: AdNode) { x.CreateCreative? && x.localId == ad.creativeRef && x.creativeSpec == ad.creative }

  lemma {:induction false} AdStepsAre(ads: seq<AdNode>, n: nat, used: set<Id>, x: Step)
    requires FreshAds(ads, used) && x in AdCreates(ads, n)
    ensures PlainStep(x) && !x.Activate? && !x.CreateCampaign?
    ensures x.CreateCreative? ==> exists k :: 0 <= k < |ads| && IsCreativeOf(x, ads[k])
    decreases |ads|
  {
    if x in AdCreates(ads[1..], n + 2) {
      AdStepsAre(ads[1..], n + 2, used + {ads[0].id}, x);
      if x.CreateCreative? {
        var k :| 0 <= k < |ads[1..]| && IsCreativeOf(x, ads[1..][k]);
        assert IsCreativeOf(x, ads[k + 1]);
      }
    } else if x.CreateCreative? {
      assert IsCreativeOf(x, ads[0]);
    }
  }

  lemma {:induction false} SetStepsAre(sets: seq<SetNode>, n: nat, used: set<Id>, x: Step)
    requires FreshSets(sets, used) && x in SetCreates(sets, n)
    ensures PlainStep(x) && !x.Activate? && !x.CreateCampaign? && (x.CreateCreative? ==> OfSomeAd(x, sets))
    decreases |sets|
  {
    if x in AdCreates(sets[0].ads, n + 1) {
      AdStepsAre(sets[0].ads, n + 1, used + {sets[0].id}, x);
    } else if x in SetCreates(sets[1..], n + 1 + 2 * |sets[0].ads|) {
      SetStepsAre(sets[1..], n + 1 + 2 * |sets[0].ads|, used + {sets[0].id} + AdIds(sets[0].ads), x);
      if x.CreateCreative? {
        var j, k :| 0 <= j < |sets[1..]| && 0 <= k < |sets[1..][j].ads| && IsCreativeOf(x, sets[1..][j].ads[k]);
        assert IsCreativeOf(x, sets[j + 1].ads[k]);
      }
    }
  }

  // ---------- Where idMap and the copy put them ----------

  lemma {:induction false} BoundAdAt(idMap: map<string, MetaId>, c: nat, ads: seq<AdNode>, k: nat)
    requires BoundAds(idMap, c, ads) && k < |ads|
    ensures ads[k].id in idMap && idMap[ads[k].id] == MetaId(AdType, c + 2 * k + 2)
    decreases k
  {
    if k > 0 { BoundAdAt(idMap, c + 2, ads[1..], k - 1); }
  }

  lemma {:induction false} BoundSetAt(idMap: map<string, MetaId>, c: nat, sets: seq<SetNode>, j: nat)
    requires BoundSets(idMap, c, sets) && j < |sets|
    ensures sets[j].id in idMap && idMap[sets[j].id] == MetaId(AdSetType, c + Before(sets, j) + 1)
    ensures BoundAds(idMap, c + Before(sets, j) + 1, sets[j].ads)
    decreases j
  {
    if j > 0 { BoundSetAt(idMap, c + 1 + 2 * |sets[0].ads|, sets[1..], j - 1); }
  }

  /** The k-th ad of a copy, with the creative made just before it. */
  ghost predicate AdCopied(m: Meta, sid: MetaId, c: nat, ad: AdNode, content: Content, status: EntityStatus) {
    var id, creative := MetaId(AdType, c + 2), MetaId(CreativeType, c + 1);
    && id in m.entities && creative in m.entities
    && m.entities[creative] == CreativeEntity(ad.creative)
    && m.entities[id] == AdEntity(ad.ad.name, Some(sid), if HasCreative(content, ad.id) then Some(creative) else None, status)
  }

  lemma {:induction false} CopiedAdAt(m: Meta, sid: MetaId, ads: seq<AdNode>, content: Content, status: EntityStatus, k: nat)
    requires Numbered(m) && k < |ads|
    ensures AdCopied(CopyAds(m, sid, ads, content, status), sid, m.counter + 2 * k, ads[k], content, status)
    decreases |ads|
  {
    hide CopyAds;
    var m1 := CopiedOneAd(m, sid, ads[0], content, status);
    var m' := CopiedAds(m1, sid, ads[1..], content, status);
    CopyAdsCons(m, sid, ads, content, status);
    if k == 0 { OneAdCopied(m, sid, ads[0], content, status); } else { CopiedAdAt(m1, sid, ads[1..], content, status, k - 1); }
  }

  lemma OneAdCopied(m: Meta, sid: MetaId, ad: AdNode, content: Content, status: EntityStatus)
    requires Numbered(m)
    ensures AdCopied(CopyAds(m, sid, [ad], content, status), sid, m.counter, ad, content, status)
  {
    assert [ad][1..] == [];
  }

  ghost predicate SetCopied(m: Meta, campaign: MetaId, c: nat, s: SetNode, content: Content, status: EntityStatus) {
    var id := MetaId(AdSetType, c + 1);
    && id in m.entities && m.entities[id] == AdSetEntity(s.spec, Some(campaign), status)
    && forall k :: 0 <= k < |s.ads| ==> AdCopied(m, id, c + 1 + 2 * k, s.ads[k], content, status)
  }

  lemma OneSetCopied(m: Meta, campaign: MetaId, s: SetNode, content: Content, status: EntityStatus)
    requires Numbered(m)
    ensures SetCopied(CopySets(m, campaign, [s], content, status), campaign, m.counter, s, content, status)
  {
    hide CopyAds, AdCopied;
    var withSet := Add(m, AdSetType, AdSetEntity(s.spec, Some(campaign), status));
    var m' := CopiedAds(withSet, NextId(m, AdSetType), s.ads, content, status);
    forall k | 0 <= k < |s.ads| ensures AdCopied(m', NextId(m, AdSetType), m.counter + 1 + 2 * k, s.ads[k], content, status) {
      CopiedAdAt(withSet, NextId(m, AdSetType), s.ads, content, status, k);
    }
    assert [s][1..] == [];
    assert CopySets(m, campaign, [s], content, status) == m';
  }

  lemma {:induction false} CopiedSetAt(m: Meta, campaign: MetaId, sets: seq<SetNode>, content: Content, status: EntityStatus, j: nat)
    requires Numbered(m) && j < |sets|
    ensures SetCopied(CopySets(m, campaign, sets, content, status), campaign, m.counter + Before(sets, j), sets[j], content, status)
    decreases |sets|
  {
    hide CopySets, SetCopied;
    var m1 := CopiedOneSet(m, campaign, sets[0], content, status);
    var m' := CopiedSets(m1, campaign, sets[1..], content, status);
    CopySetsCons(m, campaign, sets, content, status);
    if j == 0 {
      OneSetCopied(m, campaign, sets[0], content, status);
      SetStaysCopied(m1, m', campaign, m.counter, sets[0], content, status);
    } else {
      CopiedSetAt(m1, campaign, sets[1..], content, status, j - 1);
    }
  }

  lemma SetStaysCopied(m: Meta, m': Meta, campaign: MetaId, c: nat, s: SetNode, content: Content, status: EntityStatus)
    requires SetCopied(m, campaign, c, s, content, status) && Extends(m, m')
    ensures SetCopied(m', campaign, c, s, content, status)
  {
    forall k | 0 <= k < |s.ads| ensures AdCopied(m', MetaId(AdSetType, c + 1), c + 1 + 2 * k, s.ads[k], content, status) {
      assert AdCopied(m, MetaId(AdSetType, c + 1), c + 1 + 2 * k, s.ads[k], content, status);
    }
  }

  // ---------- After a complete run ----------

  /** The ad set's row holds the id of the entity made from it, and so does every ad row below it. */
  ghost predicate SetRecorded(content: Content, c: nat, s: SetNode) {
    && s.id in content.adSets && content.adSets[s.id].metaAdSetId == Some(MetaId(AdSetType, c + 1)) && content.adSets[s.id].published
    && forall k :: 0 <= k < |s.ads| ==>
         && s.ads[k].id in content.ads
         && content.ads[s.ads[k].id].metaAdId == Some(MetaId(AdType, c + 1 + 2 * k + 2)) && content.ads[s.ads[k].id].published
  }

  /** A creative's row holds a new creative on Meta that shows an ad naming it. */
  ghost predicate CreativeRecorded(m: Meta, m': Meta, content: Content, sets: seq<SetNode>, ref: Id) {
    && ref in content.creatives && content.creatives[ref].metaCreativeId.Some?
    && var id := content.creatives[ref].metaCreativeId.value;
    && id.kind == CreativeType && m.counter < id.n && id in m'.entities
    && exists j, k :: 0 <= j < |sets| && 0 <= k < |sets[j].ads| && ShownFor(m'.entities[id], ref, sets[j].ads[k])
  }

  predicate ShownFor(e: Entity, ref: Id, ad: AdNode) { ad.creativeRef == ref && e == CreativeEntity(ad.creative) }

  lemma {:induction false} ActivationsKeepRows(s: Run, job: Job, p: Plan)
    requires forall i :: 0 <= i < |p| ==> p[i].Activate?
    ensures var s' := RunSteps(s, job, p);
      && s'.content == s.content && s'.idMap == s.idMap
      && forall id :: id in s.meta.entities && id.kind == CreativeType ==> id in s'.meta.entities && s'.meta.entities[id] == s.meta.entities[id]
    decreases |p|
  {
    if p != [] { ActivationsKeepRows(RunStep(s, job, p[0]), job, p[1..]); }
  }

  /** The state after the creates. */
  function Created(m: Meta, content: Content, job: Job, t: Tree): Run { RunSteps(Start(m, content), job, Creates(t)) }

  lemma CompleteRunIs(m: Meta, content: Content, job: Job, t: Tree)
    ensures var s, s' := Created(m, content, job, t), RunSteps(Start(m, content), job, Flatten(t));
      && s'.content == s.content && s'.idMap == s.idMap
      && forall id :: id in s.meta.entities && id.kind == CreativeType ==> id in s'.meta.entities && s'.meta.entities[id] == s.meta.entities[id]
  {
    hide RunSteps, Creates, Activations;
    var p := Activations(t);
    forall i | 0 <= i < |p| ensures p[i].Activate? {
      PlanLength(t);
      PlanNumbering(t, CreateCount(t) + i);
      assert Flatten(t)[CreateCount(t) + i] == p[i];
    }
    RunAppend(Start(m, content), job, Creates(t), p);
    ActivationsKeepRows(Created(m, content, job, t), job, p);
  }

  lemma CreatesFollow(m: Meta, content: Content, job: Job, t: Tree)
    requires Publishable(m, content, job, t)
    ensures forall x :: x in Creates(t) ==> Follows(Created(m, content, job, t), job, x)
  {
    hide Follows, RunSteps;
    forall x | x in Creates(t) ensures CountsCampaign(job, x) {
      if x in SetCreates(t.sets, 1) { SetStepsAre(t.sets, 1, {t.id}, x); }
    }
    RunFollows(Start(m, content), job, Creates(t), {});
  }

  lemma SetIsRecorded(m: Meta, content: Content, job: Job, t: Tree, j: nat)
    requires Publishable(m, content, job, t) && j < |t.sets| && t.sets[j].id in content.adSets
    ensures SetRecorded(Created(m, content, job, t).content, m.counter + 1 + Before(t.sets, j), t.sets[j])
  {
    hide RunSteps, CopyTree, FreshSets, SetCreates, BoundSets, BoundAds, RowsMatch;
    var s, node := Created(m, content, job, t), t.sets[j];
    RunCreates(m, content, job, t);
    RunKeepsDrafts(Start(m, content), job, Creates(t));
    CreatesFollow(m, content, job, t);
    BoundSetAt(s.idMap, m.counter + 1, t.sets, j);
    SetStepAt(t.sets, 1, j);
    assert Follows(s, job, CreateAdSet(1 + Before(t.sets, j) + 1, node.spec, node.id));
    forall k | 0 <= k < |node.ads|
      ensures node.ads[k].id in s.content.ads
      ensures s.content.ads[node.ads[k].id].metaAdId == Some(MetaId(AdType, m.counter + 1 + Before(t.sets, j) + 1 + 2 * k + 2))
      ensures s.content.ads[node.ads[k].id].published
    {
      AdIsRecorded(m, content, job, t, j, k);
    }
  }

  lemma AdIsRecorded(m: Meta, content: Content, job: Job, t: Tree, j: nat, k: nat)
    requires Publishable(m, content, job, t) && j < |t.sets| && k < |t.sets[j].ads|
    ensures var c, aid := Created(m, content, job, t).content, t.sets[j].ads[k].id;
      && aid in c.ads && c.ads[aid].published
      && c.ads[aid].metaAdId == Some(MetaId(AdType, m.counter + 1 + Before(t.sets, j) + 1 + 2 * k + 2))
  {
    hide RunSteps, CopyTree, FreshSets, SetCreates, BoundSets, BoundAds;
    var s, node, n := Created(m, content, job, t), t.sets[j], 1 + Before(t.sets, j) + 1;
    RunCreates(m, content, job, t);
    RunKeepsDrafts(Start(m, content), job, Creates(t));
    CreatesFollow(m, content, job, t);
    BoundSetAt(s.idMap, m.counter + 1, t.sets, j);
    SetStepAt(t.sets, 1, j);
    assert node in t.sets && node.ads[k] in node.ads;
    assert RowMatches(content, node.id, node.ads[k]);
    BoundAdAt(s.idMap, m.counter + n, node.ads, k);
    AdStepsAt(node.ads, n, k);
    assert AdCreates(node.ads, n)[2 * k + 1] in Creates(t);
    assert Follows(s, job, CreateAd(n + 2 * k + 2, node.ads[k].ad, node.ads[k].id));
  }

  lemma CreativeIsRecorded(m: Meta, content: Content, job: Job, t: Tree, j: nat, k: nat)
    requires Publishable(m, content, job, t) && j < |t.sets| && k < |t.sets[j].ads| && t.sets[j].ads[k].creativeRef in content.creatives
    ensures CreativeRecorded(m, Created(m, content, job, t).meta, Created(m, content, job, t).content, t.sets, t.sets[j].ads[k].creativeRef)
  {
    hide RunSteps, CopyTree, FreshSets, SetCreates, RowsMatch;
    var s, ad := Created(m, content, job, t), t.sets[j].ads[k];
    var ref, n := ad.creativeRef, 1 + Before(t.sets, j) + 1;
    RunKeepsDrafts(Start(m, content), job, Creates(t));
    CreatesFollow(m, content, job, t);
    SetStepAt(t.sets, 1, j);
    AdStepsAt(t.sets[j].ads, n, k);
    assert AdCreates(t.sets[j].ads, n)[2 * k] in Creates(t);
    assert Follows(s, job, CreateCreative(n + 2 * k + 1, ad.creative, ref));
    forall x | x in Creates(t) ensures PlainStep(x) && !x.Activate? && (x.CreateCreative? ==> OfSomeAd(x, t.sets)) {
      if x in SetCreates(t.sets, 1) { SetStepsAre(t.sets, 1, {t.id}, x); }
    }
    CreatesShow(m, Start(m, content), job, [], Creates(t), ref);
    assert [] + Creates(t) == Creates(t);
    var id := s.idMap[CreativeKey(ref)];
    var x :| x in Creates(t) && x.CreateCreative? && x.localId == ref && s.meta.entities[id] == CreativeEntity(x.creativeSpec);
    var j', k' :| 0 <= j' < |t.sets| && 0 <= k' < |t.sets[j'].ads| && IsCreativeOf(x, t.sets[j'].ads[k']);
    assert ShownFor(s.meta.entities[id], ref, t.sets[j'].ads[k']);
  }

  /**
   * A complete run writes the id of every entity it creates to the row it was created from, and
   * leaves every other column of every row as it was.
   */
  lemma CompleteRunRecords(m: Meta, content: Content, job: Job, t: Tree)
    requires Publishable(m, content, job, t) && job.campaignId in content.campaigns
    requires forall s :: s in t.sets ==> s.id in content.adSets
    ensures var s := RunSteps(Start(m, content), job, Flatten(t));
      && SameDrafts(content, s.content) && SameRows(content, s.content)
      && s.content.campaigns[job.campaignId].metaCampaignId == Some(MetaId(CampaignType, m.counter + 1))
      && s.content.campaigns[job.campaignId].adAccountId == Some(job.accountId)
      && (forall j :: 0 <= j < |t.sets| ==> SetRecorded(s.content, m.counter + 1 + Before(t.sets, j), t.sets[j]))
      && (forall j, k :: 0 <= j < |t.sets| && 0 <= k < |t.sets[j].ads| && t.sets[j].ads[k].creativeRef in content.creatives ==>
            CreativeRecorded(m, s.meta, s.content, t.sets, t.sets[j].ads[k].creativeRef))
  {
    hide RunSteps, CopyTree, FreshSets, SetCreates, SetRecorded, CreativeRecorded, Before, Flatten, RowsMatch;
    var s, s' := Created(m, content, job, t), RunSteps(Start(m, content), job, Flatten(t));
    CompleteRunIs(m, content, job, t);
    RunCreates(m, content, job, t);
    RunKeepsDrafts(Start(m, content), job, Creates(t));
    CreatesFollow(m, content, job, t);
    assert CreateCampaign(1, t.spec, t.id) in Creates(t);
    assert Follows(s, job, CreateCampaign(1, t.spec, t.id));
    forall j | 0 <= j < |t.sets| ensures SetRecorded(s.content, m.counter + 1 + Before(t.sets, j), t.sets[j]) {
      assert t.sets[j] in t.sets;
      SetIsRecorded(m, content, job, t, j);
    }
    forall j, k | 0 <= j < |t.sets| && 0 <= k < |t.sets[j].ads| && t.sets[j].ads[k].creativeRef in content.creatives
      ensures CreativeRecorded(m, s'.meta, s'.content, t.sets, t.sets[j].ads[k].creativeRef)
    {
      CreativeIsRecorded(m, content, job, t, j, k);
      CreativeStaysRecorded(m, s.meta, s'.meta, s.content, t.sets, t.sets[j].ads[k].creativeRef);
    }
  }

  lemma CreativeStaysRecorded(m: Meta, m1: Meta, m2: Meta, content: Content, sets: seq<SetNode>, ref: Id)
    requires CreativeRecorded(m, m1, content, sets, ref)
    requires forall id :: id in m1.entities && id.kind == CreativeType ==> id in m2.entities && m2.entities[id] == m1.entities[id]
    ensures CreativeRecorded(m, m2, content, sets, ref)
  {
  }

  /** No two ads of a tree sit at the same place. */
  lemma {:induction false} BeforeGrows(sets: seq<SetNode>, i: nat, j: nat)
    requires i < j < |sets|
    ensures Before(sets, i) + 1 + 2 * |sets[i].ads| <= Before(sets, j)
    decreases i
  {
    if i > 0 { BeforeGrows(sets[1..], i - 1, j - 1); }
  }
}
