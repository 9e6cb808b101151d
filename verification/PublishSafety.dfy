/** Publishing as a whole: what a complete run leaves on Meta, and what a cut-short one leaves. */
module PublishSafety {
  import opened Core
  import opened PublishPlan
  import opened MetaStore
  import opened Rows
  import opened PlanShape
  import opened PlanRun
  import opened TreeCopy

  /** The entities numbered above lo and up to hi are ACTIVE (creatives never are). */
  function ActivateUpTo(m: Meta, lo: nat, hi: nat): Meta {
    m.(entities := map id | id in m.entities ::
      if lo < id.n <= hi && id.kind != CreativeType then m.entities[id].(status := Active) else m.entities[id])
  }

  // ---------- Where the copied entities sit ----------

  ghost predicate OnlyAt(m: Meta, id: MetaId) {
    id in m.entities && forall k :: k in m.entities && k.n == id.n ==> k == id
  }

  ghost predicate OnlyCreativeAt(m: Meta, n: nat) {
    forall k :: k in m.entities && k.n == n ==> k.kind == CreativeType
  }

  ghost predicate AdsAt(m: Meta, c: nat, ads: seq<AdNode>)
    decreases |ads|
  {
    ads == [] || (OnlyCreativeAt(m, c + 1) && OnlyAt(m, MetaId(AdType, c + 2)) && AdsAt(m, c + 2, ads[1..]))
  }

  ghost predicate SetsAt(m: Meta, c: nat, sets: seq<SetNode>)
    decreases |sets|
  {
    sets == [] ||
    (&& OnlyAt(m, MetaId(AdSetType, c + 1))
     && AdsAt(m, c + 1, sets[0].ads)
     && SetsAt(m, c + 1 + 2 * |sets[0].ads|, sets[1..]))
  }

  /** m' keeps every entity of m and adds only entities numbered above m's counter. */
  ghost predicate Extends(m: Meta, m': Meta) {
    && m.counter <= m'.counter
    && (forall id :: id in m.entities ==> id in m'.entities && m'.entities[id] == m.entities[id])
    && (forall id :: id in m'.entities && id !in m.entities ==> m.counter < id.n)
    && m'.studies == m.studies
  }

  lemma {:induction false} AdsStay(m: Meta, m': Meta, c: nat, ads: seq<AdNode>)
    requires AdsAt(m, c, ads) && Extends(m, m') && c + 2 * |ads| <= m.counter
    ensures AdsAt(m', c, ads)
    decreases |ads|
  {
    if ads != [] { AdsStay(m, m', c + 2, ads[1..]); }
  }

  lemma ExtendsTrans(a: Meta, b: Meta, c: Meta)
    requires Extends(a, b) && Extends(b, c)
    ensures Extends(a, c)
  {
  }

  lemma PlacesStay(m: Meta, m': Meta, n: nat)
    requires Extends(m, m') && n <= m.counter
    ensures OnlyCreativeAt(m, n) ==> OnlyCreativeAt(m', n)
    ensures forall kind :: OnlyAt(m, MetaId(kind, n)) ==> OnlyAt(m', MetaId(kind, n))
  {
  }

  lemma CopiedOneAd(m: Meta, sid: MetaId, ad: AdNode, c: Content, status: EntityStatus) returns (m': Meta)
    requires Numbered(m)
    ensures m' == CopyAds(m, sid, [ad], c, status)
    ensures Extends(m, m') && Numbered(m') && m'.counter == m.counter + 2
    ensures OnlyCreativeAt(m', m.counter + 1) && OnlyAt(m', MetaId(AdType, m.counter + 2))
  {
    var m1 := Add(m, CreativeType, CreativeEntity(ad.creative));
    var creative := if HasCreative(c, ad.id) then Some(NextId(m, CreativeType)) else None;
    m' := Add(m1, AdType, AdEntity(ad.ad.name, Some(sid), creative, status));
    assert [ad][1..] == [];
  }

  lemma {:induction false} CopiedAds(m: Meta, sid: MetaId, ads: seq<AdNode>, c: Content, status: EntityStatus)
    returns (m': Meta)
    requires Numbered(m)
    ensures m' == CopyAds(m, sid, ads, c, status)
    ensures Extends(m, m') && Numbered(m') && m'.counter == m.counter + 2 * |ads|
    ensures AdsAt(m', m.counter, ads)
    decreases |ads|
  {
    if ads == [] {
      m' := m;
    } else {
      var m1 := CopiedOneAd(m, sid, ads[0], c, status);
      m' := CopiedAds(m1, sid, ads[1..], c, status);
      CopyAdsCons(m, sid, ads, c, status);
      ExtendsTrans(m, m1, m');
      PlacesStay(m1, m', m.counter + 1);
      PlacesStay(m1, m', m.counter + 2);
    }
  }

  lemma CopiedOneSet(m: Meta, campaign: MetaId, s: SetNode, c: Content, status: EntityStatus) returns (m': Meta)
    requires Numbered(m)
    ensures m' == CopySets(m, campaign, [s], c, status)
    ensures Extends(m, m') && Numbered(m') && m'.counter == m.counter + 1 + 2 * |s.ads|
    ensures OnlyAt(m', MetaId(AdSetType, m.counter + 1)) && AdsAt(m', m.counter + 1, s.ads)
  {
    var withSet := Add(m, AdSetType, AdSetEntity(s.spec, Some(campaign), status));
    assert OnlyAt(withSet, MetaId(AdSetType, m.counter + 1)) && Extends(m, withSet) && Numbered(withSet);
    m' := CopiedAds(withSet, NextId(m, AdSetType), s.ads, c, status);
    ExtendsTrans(m, withSet, m');
    PlacesStay(withSet, m', m.counter + 1);
    assert [s][1..] == [];
  }

  lemma {:induction false} CopiedSets(m: Meta, campaign: MetaId, sets: seq<SetNode>, c: Content, status: EntityStatus)
    returns (m': Meta)
    requires Numbered(m)
    ensures m' == CopySets(m, campaign, sets, c, status)
    ensures Extends(m, m') && Numbered(m') && m'.counter == m.counter + |sets| + 2 * CountAds(sets)
    ensures SetsAt(m', m.counter, sets)
    decreases |sets|
  {
    if sets == [] {
      m' := m;
    } else {
      var m1 := CopiedOneSet(m, campaign, sets[0], c, status);
      m' := CopiedSets(m1, campaign, sets[1..], c, status);
      CopySetsCons(m, campaign, sets, c, status);
      ExtendsTrans(m, m1, m');
      PlacesStay(m1, m', m.counter + 1);
      AdsStay(m1, m', m.counter + 1, sets[0].ads);
    }
  }

  /** The copy adds CreateCount new entities and leaves every older one as it was. */
  lemma CopiedTree(m: Meta, t: Tree, c: Content, status: EntityStatus) returns (m': Meta)
    requires Numbered(m)
    ensures m' == CopyTree(m, t, c, status)
    ensures Extends(m, m') && Numbered(m') && m'.counter == m.counter + CreateCount(t)
    ensures OnlyAt(m', MetaId(CampaignType, m.counter + 1)) && SetsAt(m', m.counter + 1, t.sets)
  {
    var m1 := Add(m, CampaignType, CampaignEntity(t.spec, status));
    m' := CopiedSets(m1, NextId(m, CampaignType), t.sets, c, status);
  }

  // ---------- The activation phase ----------

  /** Activating the next entity moves the bound up to it. */
  lemma ActivateNext(m: Meta, lo: nat, hi: nat, id: MetaId)
    requires OnlyAt(m, id) && id.kind != CreativeType && lo <= hi < id.n
    requires forall k :: k in m.entities && hi < k.n < id.n ==> k.kind == CreativeType
    ensures SetStatus(ActivateUpTo(m, lo, hi), id.kind, id, Active) == ActivateUpTo(m, lo, id.n)
  {
    var a, b := SetStatus(ActivateUpTo(m, lo, hi), id.kind, id, Active), ActivateUpTo(m, lo, id.n);
    assert a.entities.Keys == b.entities.Keys;
    forall k | k in a.entities ensures a.entities[k] == b.entities[k] { }
  }

  /** The bound after the first j activations of these ad sets and their ads. */
  function HighSets(c: nat, sets: seq<SetNode>, j: nat): nat
    decreases |sets|
  {
    if sets == [] || j == 0 then c
    else if j - 1 <= |sets[0].ads| then c + 1 + 2 * (j - 1)
    else HighSets(c + 1 + 2 * |sets[0].ads|, sets[1..], j - 1 - |sets[0].ads|)
  }

  lemma ActivateOne(s: Run, job: Job, m: Meta, lo: nat, hi: nat, step: Step)
    requires step.Activate? && step.localId in s.idMap && s.meta == ActivateUpTo(m, lo, hi) && lo <= hi
    requires var id := s.idMap[step.localId];
      && id.kind == step.kind && id.kind != CreativeType && OnlyAt(m, id) && hi < id.n
      && forall k :: k in m.entities && hi < k.n < id.n ==> k.kind == CreativeType
    ensures RunStep(s, job, step) == s.(meta := ActivateUpTo(m, lo, s.idMap[step.localId].n))
  {
    ActivateNext(m, lo, hi, s.idMap[step.localId]);
  }

  lemma {:induction false} RunAdActivations(s: Run, job: Job, m: Meta, lo: nat, c: nat, ads: seq<AdNode>, n: nat, j: nat)
    returns (p: Plan)
    requires s.meta == ActivateUpTo(m, lo, c) && lo <= c
    requires AdsAt(m, c, ads) && BoundAds(s.idMap, c, ads) && j <= |ads|
    ensures j <= |AdActivations(ads, n)| && p == AdActivations(ads, n)[..j]
    ensures RunSteps(s, job, p) == s.(meta := ActivateUpTo(m, lo, c + 2 * j))
    decreases |ads|
  {
    hide ActivateUpTo, RunStep;
    AdActivationsLength(ads, n);
    if j == 0 {
      p := [];
    } else {
      var first, tail := Activate(n + 1, AdType, ads[0].id), AdActivations(ads[1..], n + 1);
      ActivateOne(s, job, m, lo, c, first);
      var s1 := s.(meta := ActivateUpTo(m, lo, c + 2));
      var rest := RunAdActivations(s1, job, m, lo, c + 2, ads[1..], n + 1, j - 1);
      PrefixInTail([first], tail, j - 1);
      RunOne(s, job, first, rest);
      p := [first] + rest;
    }
  }

  /** One ad set's activations: the set, then the first j of its ads. */
  lemma RunOneSetActivations(s: Run, job: Job, m: Meta, lo: nat, c: nat, first: SetNode, n: nat, j: nat) returns (p: Plan)
    requires s.meta == ActivateUpTo(m, lo, c) && lo <= c
    requires OnlyAt(m, MetaId(AdSetType, c + 1)) && AdsAt(m, c + 1, first.ads)
    requires first.id in s.idMap && s.idMap[first.id] == MetaId(AdSetType, c + 1)
    requires BoundAds(s.idMap, c + 1, first.ads) && j <= |first.ads|
    ensures j <= |AdActivations(first.ads, n + 1)|
    ensures p == [Activate(n + 1, AdSetType, first.id)] + AdActivations(first.ads, n + 1)[..j]
    ensures RunSteps(s, job, p) == s.(meta := ActivateUpTo(m, lo, c + 1 + 2 * j))
  {
    hide ActivateUpTo, RunStep;
    var step := Activate(n + 1, AdSetType, first.id);
    ActivateOne(s, job, m, lo, c, step);
    var s1 := s.(meta := ActivateUpTo(m, lo, c + 1));
    var rest := RunAdActivations(s1, job, m, lo, c + 1, first.ads, n + 1, j);
    RunOne(s, job, step, rest);
    p := [step] + rest;
  }

  lemma SetActivationsCons(sets: seq<SetNode>, n: nat, j: nat)
    requires sets != [] && 0 < j <= |sets| + CountAds(sets)
    ensures |SetActivations(sets, n)| == |sets| + CountAds(sets)
    ensures var first, block := [Activate(n + 1, AdSetType, sets[0].id)], AdActivations(sets[0].ads, n + 1);
      var tail := SetActivations(sets[1..], n + 1 + |sets[0].ads|);
      && |block| == |sets[0].ads| && |tail| == |sets| - 1 + CountAds(sets[1..])
      && SetActivations(sets, n)[..j] ==
        if j - 1 <= |block| then first + block[..j - 1] else (first + block[..|block|]) + tail[..j - 1 - |block|]
  {
    var first, block := [Activate(n + 1, AdSetType, sets[0].id)], AdActivations(sets[0].ads, n + 1);
    var tail := SetActivations(sets[1..], n + 1 + |sets[0].ads|);
    SetActivationsLength(sets, n);
    AdActivationsLength(sets[0].ads, n + 1);
    SetActivationsLength(sets[1..], n + 1 + |sets[0].ads|);
    assert block[..|block|] == block;
    PrefixOf(first, block, tail, j);
  }

  lemma PrefixOf(first: Plan, block: Plan, tail: Plan, j: nat)
    requires |first| == 1 && 0 < j <= 1 + |block| + |tail|
    ensures (first + block + tail)[..j] ==
      if j - 1 <= |block| then first + block[..j - 1] else (first + block) + tail[..j - 1 - |block|]
  {
  }

  lemma {:induction false} RunSetActivations(s: Run, job: Job, m: Meta, lo: nat, c: nat, sets: seq<SetNode>, n: nat, j: nat)
    returns (p: Plan)
    requires s.meta == ActivateUpTo(m, lo, c) && lo <= c
    requires SetsAt(m, c, sets) && BoundSets(s.idMap, c, sets) && j <= |sets| + CountAds(sets)
    ensures j <= |SetActivations(sets, n)| && p == SetActivations(sets, n)[..j]
    ensures RunSteps(s, job, p) == s.(meta := ActivateUpTo(m, lo, HighSets(c, sets, j)))
    decreases |sets|
  {
    hide ActivateUpTo, RunStep;
    SetActivationsLength(sets, n);
    if j == 0 {
      p := [];
    } else {
      var size := |sets[0].ads|;
      SetActivationsCons(sets, n, j);
      if j - 1 <= size {
        p := RunOneSetActivations(s, job, m, lo, c, sets[0], n, j - 1);
      } else {
        var p1 := RunOneSetActivations(s, job, m, lo, c, sets[0], n, size);
        var c2 := c + 1 + 2 * size;
        var s2 := s.(meta := ActivateUpTo(m, lo, c2));
        var p2 := RunSetActivations(s2, job, m, lo, c2, sets[1..], n + 1 + size, j - 1 - size);
        RunAppend(s, job, p1, p2);
        p := p1 + p2;
      }
    }
  }

  lemma PrefixInTail(front: Plan, tail: Plan, k: nat)
    requires k <= |tail|
    ensures (front + tail)[..|front| + k] == front + tail[..k]
  {
  }

  // ---------- The paused copy, activated throughout, is the active copy ----------

  lemma ActivateAdded(m: Meta, kind: EntityType, e: Entity, lo: nat, hi: nat)
    requires lo < m.counter + 1 <= hi
    ensures ActivateUpTo(Add(m, kind, e), lo, hi)
         == Add(ActivateUpTo(m, lo, hi), kind, if kind == CreativeType then e else e.(status := Active))
  {
    var a := ActivateUpTo(Add(m, kind, e), lo, hi);
    var b := Add(ActivateUpTo(m, lo, hi), kind, if kind == CreativeType then e else e.(status := Active));
    assert a.entities.Keys == b.entities.Keys;
    forall k | k in a.entities ensures a.entities[k] == b.entities[k] { }
  }

  lemma {:induction false} ActivateCopiedAds(m: Meta, sid: MetaId, ads: seq<AdNode>, c: Content, lo: nat, hi: nat)
    requires lo <= m.counter && m.counter + 2 * |ads| <= hi
    ensures ActivateUpTo(CopyAds(m, sid, ads, c, Paused), lo, hi) == CopyAds(ActivateUpTo(m, lo, hi), sid, ads, c, Active)
    ensures CopyAds(m, sid, ads, c, Paused).counter == m.counter + 2 * |ads|
    decreases |ads|
  {
    if ads != [] {
      hide ActivateUpTo;
      var creative := if HasCreative(c, ads[0].id) then Some(NextId(m, CreativeType)) else None;
      var m1 := Add(m, CreativeType, CreativeEntity(ads[0].creative));
      var m2 := Add(m1, AdType, AdEntity(ads[0].ad.name, Some(sid), creative, Paused));
      ActivateAdded(m, CreativeType, CreativeEntity(ads[0].creative), lo, hi);
      ActivateAdded(m1, AdType, AdEntity(ads[0].ad.name, Some(sid), creative, Paused), lo, hi);
      assert ActivateUpTo(m, lo, hi).counter == m.counter by { ActivateKeepsCounter(m, lo, hi); }
      ActivateCopiedAds(m2, sid, ads[1..], c, lo, hi);
    }
  }

  lemma ActivateKeepsCounter(m: Meta, lo: nat, hi: nat)
    ensures ActivateUpTo(m, lo, hi).counter == m.counter
  {
  }

  lemma {:induction false} ActivateCopiedSets(m: Meta, campaign: MetaId, sets: seq<SetNode>, c: Content, lo: nat, hi: nat)
    requires lo <= m.counter && m.counter + |sets| + 2 * CountAds(sets) <= hi
    ensures ActivateUpTo(CopySets(m, campaign, sets, c, Paused), lo, hi)
         == CopySets(ActivateUpTo(m, lo, hi), campaign, sets, c, Active)
    decreases |sets|
  {
    if sets != [] {
      hide ActivateUpTo;
      var withSet := Add(m, AdSetType, AdSetEntity(sets[0].spec, Some(campaign), Paused));
      ActivateAdded(m, AdSetType, AdSetEntity(sets[0].spec, Some(campaign), Paused), lo, hi);
      ActivateKeepsCounter(m, lo, hi);
      ActivateCopiedAds(withSet, NextId(m, AdSetType), sets[0].ads, c, lo, hi);
      ActivateCopiedSets(CopyAds(withSet, NextId(m, AdSetType), sets[0].ads, c, Paused), campaign, sets[1..], c, lo, hi);
    }
  }

  lemma ActivateCopiedTree(m: Meta, t: Tree, c: Content, hi: nat)
    requires Numbered(m) && m.counter + CreateCount(t) <= hi
    ensures ActivateUpTo(CopyTree(m, t, c, Paused), m.counter, hi) == CopyTree(m, t, c, Active)
  {
    var m1 := Add(m, CampaignType, CampaignEntity(t.spec, Paused));
    assert ActivateUpTo(m, m.counter, hi) == m by {
      assert ActivateUpTo(m, m.counter, hi).entities == m.entities;
    }
    ActivateAdded(m, CampaignType, CampaignEntity(t.spec, Paused), m.counter, hi);
    ActivateCopiedSets(m1, NextId(m, CampaignType), t.sets, c, m.counter, hi);
  }

  lemma {:induction false} HighSetsFull(c: nat, sets: seq<SetNode>)
    ensures HighSets(c, sets, |sets| + CountAds(sets)) == c + |sets| + 2 * CountAds(sets)
    decreases |sets|
  {
    if sets != [] {
      HighSetsFull(c + 1 + 2 * |sets[0].ads|, sets[1..]);
    }
  }

  // ---------- The state after every prefix of the plan ----------

  /** m' is m plus new entities that are all PAUSED. */
  ghost predicate OnlyPausedAdded(m: Meta, m': Meta) {
    && Extends(m, m') && Numbered(m')
    && forall id :: id in m'.entities && id !in m.entities ==> m'.entities[id].status == Paused
  }

  lemma {:induction false} CreatesAddPaused(m: Meta, s: Run, job: Job, p: Plan)
    requires OnlyPausedAdded(m, s.meta)
    requires forall i :: 0 <= i < |p| ==> !p[i].Activate?
    ensures OnlyPausedAdded(m, RunSteps(s, job, p).meta)
    decreases |p|
  {
    if p != [] {
      var s1 := RunStep(s, job, p[0]);
      assert OnlyPausedAdded(m, s1.meta) by {
        assert Extends(s.meta, s1.meta) && Numbered(s1.meta);
        ExtendsTrans(m, s.meta, s1.meta);
      }
      CreatesAddPaused(m, s1, job, p[1..]);
    }
  }

  ghost predicate Publishable(m: Meta, content: Content, job: Job, t: Tree) {
    Numbered(m) && job.campaignId == t.id && UniqueIds(t) && RowsMatch(content, t.sets)
  }

  function Start(m: Meta, content: Content): Run { Run(m, map[], content) }

  /** Before the first activation every new entity is paused. */
  lemma PrefixOfCreates(m: Meta, content: Content, job: Job, t: Tree, j: nat)
    requires Numbered(m) && j <= CreateCount(t)
    ensures CreateCount(t) <= |Flatten(t)|
    ensures OnlyPausedAdded(m, RunSteps(Start(m, content), job, Flatten(t)[..j]).meta)
  {
    PlanLength(t);
    var p := Flatten(t)[..j];
    forall i | 0 <= i < |p| ensures !p[i].Activate? {
      PlanNumbering(t, i);
    }
    CreatesAddPaused(m, Start(m, content), job, p);
  }

  /** The highest activated id number after k >= 1 activations. */
  function High(m: Meta, t: Tree, k: nat): nat
    requires k >= 1
  {
    HighSets(m.counter + 1, t.sets, k - 1)
  }

  /** From the first activation on, the paused copy is active up to a moving bound. */
  lemma PrefixOfActivations(m: Meta, content: Content, job: Job, t: Tree, j: nat)
    requires Publishable(m, content, job, t)
    requires CreateCount(t) < j <= |Flatten(t)|
    ensures RunSteps(Start(m, content), job, Flatten(t)[..j]).meta
         == ActivateUpTo(CopyTree(m, t, content, Paused), m.counter, High(m, t, j - CreateCount(t)))
  {
    hide ActivateUpTo, CopyTree, RunStep, OnlyAt, SetsAt, BoundSets;
    var c, copy := CreateCount(t), CopyTree(m, t, content, Paused);
    PlanLength(t);
    RunCreates(m, content, job, t);
    var s := RunSteps(Start(m, content), job, Creates(t));
    var m' := CopiedTree(m, t, content, Paused);
    assert ActivateUpTo(copy, m.counter, m.counter) == copy by { ActivateNone(copy, m.counter); }
    var first := Activate(c + 1, CampaignType, t.id);
    ActivateOne(s, job, copy, m.counter, m.counter, first);
    var s1 := s.(meta := ActivateUpTo(copy, m.counter, m.counter + 1));
    var rest := RunSetActivations(s1, job, copy, m.counter, m.counter + 1, t.sets, c + 1, j - c - 1);
    RunOne(s, job, first, rest);
    RunAppend(Start(m, content), job, Creates(t), [first] + rest);
    PrefixInTail([first], SetActivations(t.sets, c + 1), j - c - 1);
    PrefixInTail(Creates(t), Activations(t), j - c);
  }

  lemma ActivateNone(m: Meta, lo: nat)
    ensures ActivateUpTo(m, lo, lo) == m
  {
    assert ActivateUpTo(m, lo, lo).entities == m.entities;
  }

  // ---------- Main results ----------

  /**
   * A fault-free run refines the direct copy: the whole of Meta afterwards is the old store plus
   * one ACTIVE copy of the tree, every ad under its own ad set and linked to its own creative.
   */
  lemma PublishCopiesTree(m: Meta, content: Content, job: Job, t: Tree)
    requires Publishable(m, content, job, t)
    ensures RunSteps(Start(m, content), job, Flatten(t)).meta == CopyTree(m, t, content, Active)
  {
    hide ActivateUpTo, CopyTree, RunSteps;
    PlanLength(t);
    var p := Flatten(t);
    assert p[..|p|] == p;
    PrefixOfActivations(m, content, job, t, |p|);
    HighSetsFull(m.counter + 1, t.sets);
    ActivateCopiedTree(m, t, content, m.counter + CreateCount(t));
  }

  // ---------- Parents ----------

  /** Every new ad has an older new ad set, and perhaps the creative made right before it; likewise ad sets. */
  ghost predicate ParentsFirst(m: Meta, m': Meta) {
    forall id :: id in m'.entities && id !in m.entities ==> ParentFirst(m, m', id)
  }

  ghost predicate ParentFirst(m: Meta, m': Meta, id: MetaId)
    requires id in m'.entities
  {
    var d := m'.entities[id].detail;
    match id.kind
    case AdType =>
      && d.OfAd? && d.adSetId.Some? && d.adSetId.value.kind == AdSetType && NewBelow(m, m', d.adSetId.value, id)
      && (d.creativeId.Some? ==> d.creativeId == Some(MetaId(CreativeType, id.n - 1)) && NewBelow(m, m', d.creativeId.value, id))
    case AdSetType =>
      d.OfAdSet? && d.campaignId == Some(MetaId(CampaignType, m.counter + 1)) && NewBelow(m, m', d.campaignId.value, id)
    case _ => true
  }

  ghost predicate NewBelow(m: Meta, m': Meta, parent: MetaId, child: MetaId) {
    parent in m'.entities && parent !in m.entities && m.counter < parent.n < child.n
  }

  /** Adding an entity whose parent is already there keeps parents first. */
  lemma AddKeepsParents(m: Meta, m1: Meta, kind: EntityType, e: Entity)
    requires ParentsFirst(m, m1) && Extends(m, m1) && Numbered(m1)
    requires var m2 := Add(m1, kind, e); ParentFirst(m, m2, NextId(m1, kind))
    ensures ParentsFirst(m, Add(m1, kind, e)) && Extends(m, Add(m1, kind, e)) && Numbered(Add(m1, kind, e))
    ensures forall id :: id in m1.entities ==> id in Add(m1, kind, e).entities
  {
    var m2 := Add(m1, kind, e);
    forall id | id in m2.entities && id !in m.entities ensures ParentFirst(m, m2, id) {
      if id != NextId(m1, kind) { assert ParentFirst(m, m1, id); }
    }
  }

  lemma {:induction false} CopyAdsParents(m: Meta, m1: Meta, sid: MetaId, ads: seq<AdNode>, c: Content, status: EntityStatus)
    requires ParentsFirst(m, m1) && Extends(m, m1) && Numbered(m1)
    requires sid in m1.entities && sid !in m.entities && sid.kind == AdSetType && m.counter < sid.n
    ensures var m' := CopyAds(m1, sid, ads, c, status);
      && ParentsFirst(m, m') && Extends(m, m') && Numbered(m')
      && forall id :: id in m1.entities ==> id in m'.entities
    decreases |ads|
  {
    if ads != [] {
      var creative := if HasCreative(c, ads[0].id) then Some(NextId(m1, CreativeType)) else None;
      AddKeepsParents(m, m1, CreativeType, CreativeEntity(ads[0].creative));
      var m2 := Add(m1, CreativeType, CreativeEntity(ads[0].creative));
      AddKeepsParents(m, m2, AdType, AdEntity(ads[0].ad.name, Some(sid), creative, status));
      CopyAdsParents(m, Add(m2, AdType, AdEntity(ads[0].ad.name, Some(sid), creative, status)), sid, ads[1..], c, status);
    }
  }

  lemma {:induction false} CopySetsParents(m: Meta, m1: Meta, sets: seq<SetNode>, c: Content, status: EntityStatus)
    requires ParentsFirst(m, m1) && Extends(m, m1) && Numbered(m1) && Numbered(m)
    requires MetaId(CampaignType, m.counter + 1) in m1.entities
    ensures var m' := CopySets(m1, MetaId(CampaignType, m.counter + 1), sets, c, status);
      ParentsFirst(m, m') && Extends(m, m')
    decreases |sets|
  {
    if sets != [] {
      var campaign := MetaId(CampaignType, m.counter + 1);
      var e := AdSetEntity(sets[0].spec, Some(campaign), status);
      AddKeepsParents(m, m1, AdSetType, e);
      var sid := NextId(m1, AdSetType);
      CopyAdsParents(m, Add(m1, AdSetType, e), sid, sets[0].ads, c, status);
      CopySetsParents(m, CopyAds(Add(m1, AdSetType, e), sid, sets[0].ads, c, status), sets[1..], c, status);
    }
  }

  /** In the copy every parent is new and numbered below its child. */
  lemma CopyTreeParents(m: Meta, t: Tree, c: Content, status: EntityStatus)
    requires Numbered(m)
    ensures ParentsFirst(m, CopyTree(m, t, c, status))
    ensures Extends(m, CopyTree(m, t, c, status))
  {
    AddKeepsParents(m, m, CampaignType, CampaignEntity(t.spec, status));
    CopySetsParents(m, Add(m, CampaignType, CampaignEntity(t.spec, status)), t.sets, c, status);
  }

  /** No new ad is ACTIVE under a paused or missing ad set, and no new ad set under such a campaign. */
  ghost predicate AncestorsActive(m: Meta, m': Meta) {
    forall id :: id in m'.entities && id !in m.entities && m'.entities[id].status == Active ==>
      var d := m'.entities[id].detail;
      match id.kind
      case AdType => d.OfAd? && d.adSetId.Some? && NewActive(m, m', d.adSetId.value, AdSetType)
      case AdSetType => d.OfAdSet? && d.campaignId.Some? && NewActive(m, m', d.campaignId.value, CampaignType)
      case _ => true
  }

  ghost predicate NewActive(m: Meta, m': Meta, id: MetaId, kind: EntityType) {
    id.kind == kind && id in m'.entities && id !in m.entities && m'.entities[id].status == Active
  }

  lemma BoundedActivationIsOrdered(m: Meta, copy: Meta, hi: nat)
    requires Numbered(m) && Extends(m, copy) && ParentsFirst(m, copy)
    requires forall id :: id in copy.entities && id !in m.entities ==> copy.entities[id].status == Paused
    ensures AncestorsActive(m, ActivateUpTo(copy, m.counter, hi))
    ensures Extends(m, ActivateUpTo(copy, m.counter, hi))
  {
    var m' := ActivateUpTo(copy, m.counter, hi);
    forall id | id in m'.entities && id !in m.entities && m'.entities[id].status == Active
      ensures ParentFirst(m, copy, id) && m'.entities[id].detail == copy.entities[id].detail && id.n <= hi
    {
    }
  }

  lemma CopyTreeIsPaused(m: Meta, content: Content, job: Job, t: Tree)
    requires Publishable(m, content, job, t)
    ensures OnlyPausedAdded(m, CopyTree(m, t, content, Paused))
  {
    PlanLength(t);
    PrefixOfCreates(m, content, job, t, CreateCount(t));
    RunCreates(m, content, job, t);
    assert Flatten(t)[..CreateCount(t)] == Creates(t);
  }

  /**
   * Whatever cuts a run short, older entities stay as they were and the active part of the new
   * tree is closed under parents; a fault among the creates leaves all that is new PAUSED.
   */
  lemma FaultSafety(m: Meta, content: Content, job: Job, t: Tree, f: Fault)
    requires Publishable(m, content, job, t)
    ensures var end := Attempt(Start(m, content), job, Flatten(t), f);
      && Extends(m, end.run.meta) && AncestorsActive(m, end.run.meta)
      && (!end.completed && f != NoFault && f.at < CreateCount(t) ==> OnlyPausedAdded(m, end.run.meta))
  {
    var j := AttemptIsPrefix(Start(m, content), job, Flatten(t), f);
    PlanLength(t);
    if j <= CreateCount(t) {
      PrefixOfCreates(m, content, job, t, j);
    } else {
      PrefixOfActivations(m, content, job, t, j);
      CopyTreeParents(m, t, content, Paused);
      CopyTreeIsPaused(m, content, job, t);
      BoundedActivationIsOrdered(m, CopyTree(m, t, content, Paused), High(m, t, j - CreateCount(t)));
    }
  }

  // ---------- When a run is half-activated ----------

  ghost predicate SomeNew(m: Meta, m': Meta, status: EntityStatus) {
    exists id :: id in m'.entities && id !in m.entities && id.kind != CreativeType && m'.entities[id].status == status
  }

  /** The next activation, if any, is of an entity above the bound. */
  lemma {:induction false} NextActivation(m: Meta, c: nat, sets: seq<SetNode>, j: nat) returns (id: MetaId)
    requires SetsAt(m, c, sets) && j < |sets| + CountAds(sets)
    ensures id in m.entities && id.kind != CreativeType && HighSets(c, sets, j) < id.n
    decreases |sets|
  {
    var size := |sets[0].ads|;
    if j == 0 {
      id := MetaId(AdSetType, c + 1);
    } else if j - 1 < size {
      id := NextAd(m, c + 1, sets[0].ads, j - 1);
    } else {
      id := NextActivation(m, c + 1 + 2 * size, sets[1..], j - 1 - size);
      HighSetsShift(c, sets, j);
    }
  }

  lemma HighSetsShift(c: nat, sets: seq<SetNode>, j: nat)
    requires sets != [] && 1 + |sets[0].ads| <= j
    ensures HighSets(c, sets, j) == HighSets(c + 1 + 2 * |sets[0].ads|, sets[1..], j - 1 - |sets[0].ads|)
  {
  }

  lemma {:induction false} NextAd(m: Meta, c: nat, ads: seq<AdNode>, j: nat) returns (id: MetaId)
    requires AdsAt(m, c, ads) && j < |ads|
    ensures id in m.entities && id.kind == AdType && id.n == c + 2 * (j + 1)
    decreases |ads|
  {
    if j == 0 { id := MetaId(AdType, c + 2); } else { id := NextAd(m, c + 2, ads[1..], j - 1); }
  }

  lemma {:induction false} HighSetsAtLeast(c: nat, sets: seq<SetNode>, j: nat)
    ensures c <= HighSets(c, sets, j)
    decreases |sets|
  {
    if sets != [] && 0 < j && |sets[0].ads| < j - 1 {
      HighSetsAtLeast(c + 1 + 2 * |sets[0].ads|, sets[1..], j - 1 - |sets[0].ads|);
    }
  }

  /** Activating up to hi leaves both statuses among the new entities when some lie on each side of hi. */
  lemma BothSides(m: Meta, copy: Meta, hi: nat, low: MetaId, high: MetaId)
    requires Numbered(m) && OnlyPausedAdded(m, copy)
    requires low in copy.entities && high in copy.entities && low.kind != CreativeType && high.kind != CreativeType
    requires m.counter < low.n <= hi < high.n
    ensures SomeNew(m, ActivateUpTo(copy, m.counter, hi), Active)
    ensures SomeNew(m, ActivateUpTo(copy, m.counter, hi), Paused)
  {
    var m' := ActivateUpTo(copy, m.counter, hi);
    assert m'.entities[low].status == Active && low !in m.entities;
    assert m'.entities[high].status == Paused && high !in m.entities;
  }

  /** Activating up to the counter leaves no new entity paused. */
  lemma OneSide(m: Meta, copy: Meta, hi: nat)
    requires Extends(m, copy) && Numbered(copy) && copy.counter <= hi
    ensures !SomeNew(m, ActivateUpTo(copy, m.counter, hi), Paused)
  {
  }

  /** After j steps some of the new tree is ACTIVE and some PAUSED exactly when j is past the first activation and before the last. */
  lemma HalfActivatedAfter(m: Meta, content: Content, job: Job, t: Tree, j: nat)
    requires Publishable(m, content, job, t) && j <= |Flatten(t)|
    ensures HalfActivated(m, RunSteps(Start(m, content), job, Flatten(t)[..j]).meta) <==> CreateCount(t) < j < |Flatten(t)|
  {
    hide ActivateUpTo, CopyTree, RunSteps, Flatten;
    PlanLength(t);
    if j <= CreateCount(t) {
      PrefixOfCreates(m, content, job, t, j);
    } else {
      PrefixOfActivations(m, content, job, t, j);
      CopyTreeIsPaused(m, content, job, t);
      var copy := CopiedTree(m, t, content, Paused);
      var k := j - CreateCount(t) - 1;
      HighSetsAtLeast(m.counter + 1, t.sets, k);
      if j < |Flatten(t)| {
        var next := NextActivation(copy, m.counter + 1, t.sets, k);
        var campaign := MetaId(CampaignType, m.counter + 1);
        BothSides(m, copy, High(m, t, k + 1), campaign, next);
      } else {
        HighSetsFull(m.counter + 1, t.sets);
        OneSide(m, copy, High(m, t, k + 1));
      }
    }
  }

  ghost predicate HalfActivated(m: Meta, m': Meta) { SomeNew(m, m', Active) && SomeNew(m, m', Paused) }

  // ---------- Which faults cut a publish short ----------

  lemma {:induction false} ActivationsKeepIdMap(s: Run, job: Job, p: Plan)
    requires forall i :: 0 <= i < |p| ==> p[i].Activate?
    ensures RunSteps(s, job, p).idMap == s.idMap
    decreases |p|
  {
    if p != [] { ActivationsKeepIdMap(RunStep(s, job, p[0]), job, p[1..]); }
  }

  lemma {:induction false} AdActivationsKnown(idMap: map<string, MetaId>, c: nat, ads: seq<AdNode>, n: nat)
    requires BoundAds(idMap, c, ads)
    ensures forall i :: 0 <= i < |AdActivations(ads, n)| ==> AdActivations(ads, n)[i].Activate? && AdActivations(ads, n)[i].localId in idMap
    decreases |ads|
  {
    if ads != [] { AdActivationsKnown(idMap, c + 2, ads[1..], n + 1); }
  }

  lemma {:induction false} SetActivationsKnown(idMap: map<string, MetaId>, c: nat, sets: seq<SetNode>, n: nat)
    requires BoundSets(idMap, c, sets)
    ensures forall i :: 0 <= i < |SetActivations(sets, n)| ==>
      SetActivations(sets, n)[i].Activate? && SetActivations(sets, n)[i].localId in idMap
    decreases |sets|
  {
    if sets != [] {
      AdActivationsKnown(idMap, c + 1, sets[0].ads, n + 1);
      SetActivationsKnown(idMap, c + 1 + 2 * |sets[0].ads|, sets[1..], n + 1 + |sets[0].ads|);
    }
  }

  /** No activation misses: when its turn comes, idMap knows the entity. */
  lemma ActivationsKnown(m: Meta, content: Content, job: Job, t: Tree, at: nat)
    requires Publishable(m, content, job, t) && CreateCount(t) <= at < |Flatten(t)|
    ensures Flatten(t)[at].Activate? && Flatten(t)[at].localId in RunSteps(Start(m, content), job, Flatten(t)[..at]).idMap
  {
    hide CopyTree, RunSteps, BoundSets, SetActivations;
    PlanLength(t);
    RunCreates(m, content, job, t);
    var s := RunSteps(Start(m, content), job, Creates(t));
    var k := at - CreateCount(t);
    SetActivationsKnown(s.idMap, m.counter + 1, t.sets, CreateCount(t) + 1);
    var p := Activations(t);
    assert forall i :: 0 <= i < |p| ==> p[i].Activate? && p[i].localId in s.idMap;
    assert Flatten(t)[..at] == Creates(t) + p[..k] && Flatten(t)[at] == p[k];
    RunAppend(Start(m, content), job, Creates(t), p[..k]);
    ActivationsKeepIdMap(s, job, p[..k]);
  }

  /** The fault cuts the run short: a failing call of any step, a failing row write of a step that writes one. */
  predicate Cuts(t: Tree, f: Fault) {
    (f.CallFails? && f.at < |Flatten(t)|) || (f.RowFails? && f.at < CreateCount(t))
  }

  lemma CutsIff(m: Meta, content: Content, job: Job, t: Tree, f: Fault)
    requires Publishable(m, content, job, t)
    ensures Stops(Start(m, content), job, Flatten(t), f) <==> Cuts(t, f)
    ensures Attempt(Start(m, content), job, Flatten(t), f).completed <==> !Cuts(t, f)
  {
    hide RunSteps, Flatten, Attempt;
    PlanLength(t);
    var j := AttemptIsPrefix(Start(m, content), job, Flatten(t), f);
    if f != NoFault && f.at < |Flatten(t)| {
      PlanNumbering(t, f.at);
      if CreateCount(t) <= f.at { ActivationsKnown(m, content, job, t, f.at); }
    }
  }

  /**
   * The service's header says nothing is left half-activated. A publish leaves some of its tree
   * ACTIVE and some PAUSED exactly when a call fails after the first activation has taken effect
   * and before the last one has.
   */
  lemma HalfActivatedIff(m: Meta, content: Content, job: Job, t: Tree, f: Fault)
    requires Publishable(m, content, job, t)
    ensures HalfActivated(m, Attempt(Start(m, content), job, Flatten(t), f).run.meta)
       <==> f.CallFails? && CreateCount(t) < (if f.reachedMeta then f.at + 1 else f.at) < |Flatten(t)|
  {
    hide RunSteps, Flatten, Attempt, HalfActivated;
    PlanLength(t);
    CutsIff(m, content, job, t, f);
    var j := AttemptIsPrefix(Start(m, content), job, Flatten(t), f);
    HalfActivatedAfter(m, content, job, t, j);
  }

  /** Every tree with an ad set has such a fault: the activation right after the campaign's. */
  lemma HalfActivationHappens(m: Meta, content: Content, job: Job, t: Tree) returns (f: Fault)
    requires Publishable(m, content, job, t) && t.sets != []
    ensures f == CallFails(CreateCount(t) + 1, false) && Cuts(t, f)
    ensures HalfActivated(m, Attempt(Start(m, content), job, Flatten(t), f).run.meta)
  {
    f := CallFails(CreateCount(t) + 1, false);
    PlanLength(t);
    HalfActivatedIff(m, content, job, t, f);
  }

  // ---------- When an ad is published without its creative ----------

  ghost predicate SomeUnlinkedAd(m: Meta, m': Meta) {
    exists id :: id in m'.entities && id !in m.entities && Unlinked(m'.entities[id])
  }

  predicate Unlinked(e: Entity) { e.detail.OfAd? && e.detail.creativeId == None }

  lemma AddUnlinked(m: Meta, m1: Meta, kind: EntityType, e: Entity)
    requires Numbered(m1) && Extends(m, m1)
    ensures SomeUnlinkedAd(m, Add(m1, kind, e)) <==> SomeUnlinkedAd(m, m1) || Unlinked(e)
    ensures Numbered(Add(m1, kind, e)) && Extends(m, Add(m1, kind, e))
  {
    var m2 := Add(m1, kind, e);
    assert NextId(m1, kind) !in m.entities && m2.entities[NextId(m1, kind)] == e;
    forall id | id in m1.entities ensures id in m2.entities && m2.entities[id] == m1.entities[id] { }
  }

  lemma {:induction false} CopyAdsUnlinked(m: Meta, m1: Meta, sid: MetaId, ads: seq<AdNode>, c: Content, status: EntityStatus)
    requires Numbered(m1) && Extends(m, m1)
    ensures var m' := CopyAds(m1, sid, ads, c, status);
      && Numbered(m') && Extends(m, m')
      && (SomeUnlinkedAd(m, m') <==> SomeUnlinkedAd(m, m1) || exists ad :: ad in ads && !HasCreative(c, ad.id))
    decreases |ads|
  {
    if ads != [] {
      hide SomeUnlinkedAd, Extends, Numbered;
      var creative := if HasCreative(c, ads[0].id) then Some(NextId(m1, CreativeType)) else None;
      var e := AdEntity(ads[0].ad.name, Some(sid), creative, status);
      AddUnlinked(m, m1, CreativeType, CreativeEntity(ads[0].creative));
      var m2 := Add(m1, CreativeType, CreativeEntity(ads[0].creative));
      AddUnlinked(m, m2, AdType, e);
      CopyAdsUnlinked(m, Add(m2, AdType, e), sid, ads[1..], c, status);
      assert forall ad :: ad in ads <==> ad == ads[0] || ad in ads[1..];
    }
  }

  lemma {:induction false} CopySetsUnlinked(m: Meta, m1: Meta, campaign: MetaId, sets: seq<SetNode>, c: Content, status: EntityStatus)
    requires Numbered(m1) && Extends(m, m1)
    ensures var m' := CopySets(m1, campaign, sets, c, status);
      SomeUnlinkedAd(m, m') <==>
        SomeUnlinkedAd(m, m1) || exists s, ad :: s in sets && ad in s.ads && !HasCreative(c, ad.id)
    decreases |sets|
  {
    if sets != [] {
      hide SomeUnlinkedAd, Extends, Numbered;
      var e := AdSetEntity(sets[0].spec, Some(campaign), status);
      AddUnlinked(m, m1, AdSetType, e);
      var sid := NextId(m1, AdSetType);
      CopyAdsUnlinked(m, Add(m1, AdSetType, e), sid, sets[0].ads, c, status);
      CopySetsUnlinked(m, CopyAds(Add(m1, AdSetType, e), sid, sets[0].ads, c, status), campaign, sets[1..], c, status);
      assert forall s :: s in sets <==> s == sets[0] || s in sets[1..];
    }
  }

  /**
   * A complete run links every ad to its creative exactly when every ad row names one: for an ad
   * without a creative id the creative is created but the ad is sent with an empty reference.
   */
  lemma UnlinkedAdIff(m: Meta, content: Content, job: Job, t: Tree)
    requires Publishable(m, content, job, t)
    ensures SomeUnlinkedAd(m, RunSteps(Start(m, content), job, Flatten(t)).meta)
       <==> exists s, ad :: s in t.sets && ad in s.ads && !HasCreative(content, ad.id)
  {
    PublishCopiesTree(m, content, job, t);
    var e := CampaignEntity(t.spec, Active);
    AddUnlinked(m, m, CampaignType, e);
    CopySetsUnlinked(m, Add(m, CampaignType, e), NextId(m, CampaignType), t.sets, content, Active);
  }
}
