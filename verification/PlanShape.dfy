/** What the flat publish plan says: its numbering, its order, and how to read the tree back. */
module PlanShape {
  import opened Core
  import opened PublishPlan

  // ---------- Numbering and phases ----------

  lemma PlanLength(t: Tree)
    ensures |Creates(t)| == CreateCount(t)
    ensures |Activations(t)| == 1 + |t.sets| + CountAds(t.sets)
    ensures |Flatten(t)| == 2 + 2 * |t.sets| + 3 * CountAds(t.sets)
  {
    SetCreatesLength(t.sets, 1);
    SetActivationsLength(t.sets, CreateCount(t) + 1);
  }

  /** Steps are numbered 1..n, and a step activates exactly when all creates are behind it. */
  lemma {:induction false} PlanNumbering(t: Tree, i: nat)
    requires i < |Flatten(t)|
    ensures Flatten(t)[i].step == i + 1
    ensures Flatten(t)[i].Activate? <==> CreateCount(t) <= i
  {
    PlanLength(t);
    SetCreatesNumbered(t.sets, 1);
    SetActivationsNumbered(t.sets, CreateCount(t) + 1);
  }

  ghost predicate StepsNumbered(p: Plan, n: nat, activating: bool) {
    forall i :: 0 <= i < |p| ==> p[i].step == n + i + 1 && p[i].Activate? == activating
  }

  lemma {:induction false} SetCreatesNumbered(sets: seq<SetNode>, n: nat)
    ensures StepsNumbered(SetCreates(sets, n), n, false)
    decreases |sets|
  {
    if sets != [] {
      AdCreatesNumbered(sets[0].ads, n + 1);
      AdCreatesLength(sets[0].ads, n + 1);
      SetCreatesNumbered(sets[1..], n + 1 + 2 * |sets[0].ads|);
    }
  }

  lemma {:induction false} AdCreatesNumbered(ads: seq<AdNode>, n: nat)
    ensures StepsNumbered(AdCreates(ads, n), n, false)
    decreases |ads|
  {
    if ads != [] { AdCreatesNumbered(ads[1..], n + 2); }
  }

  lemma {:induction false} SetActivationsNumbered(sets: seq<SetNode>, n: nat)
    ensures StepsNumbered(SetActivations(sets, n), n, true)
    decreases |sets|
  {
    if sets != [] {
      AdActivationsNumbered(sets[0].ads, n + 1);
      AdActivationsLength(sets[0].ads, n + 1);
      SetActivationsNumbered(sets[1..], n + 1 + |sets[0].ads|);
    }
  }

  lemma {:induction false} AdActivationsNumbered(ads: seq<AdNode>, n: nat)
    ensures StepsNumbered(AdActivations(ads, n), n, true)
    decreases |ads|
  {
    if ads != [] { AdActivationsNumbered(ads[1..], n + 1); }
  }

  // ---------- The two phases list the same entities in the same order ----------

  datatype Mention = Mention(kind: EntityType, id: Id)

  /** The campaign, then each ad set followed by its ads: every parent before its children. */
  function Preorder(t: Tree): seq<Mention> {
    [Mention(CampaignType, t.id)] + PreorderSets(t.sets)
  }

  function PreorderSets(sets: seq<SetNode>): seq<Mention> {
    if sets == [] then []
    else [Mention(AdSetType, sets[0].id)] + PreorderAds(sets[0].ads) + PreorderSets(sets[1..])
  }

  function PreorderAds(ads: seq<AdNode>): seq<Mention> {
    if ads == [] then [] else [Mention(AdType, ads[0].id)] + PreorderAds(ads[1..])
  }

  function CreatedBy(s: Step): seq<Mention> {
    match s
    case CreateCampaign(_, _, id) => [Mention(CampaignType, id)]
    case CreateAdSet(_, _, id) => [Mention(AdSetType, id)]
    case CreateAd(_, _, id) => [Mention(AdType, id)]
    case _ => []
  }

  function ActivatedBy(s: Step): seq<Mention> {
    if s.Activate? then [Mention(s.kind, s.localId)] else []
  }

  /** The entities a plan creates, creatives apart, in plan order. */
  function Created(p: Plan): seq<Mention> {
    if p == [] then [] else CreatedBy(p[0]) + Created(p[1..])
  }

  /** The entities a plan activates, in plan order. */
  function Activated(p: Plan): seq<Mention> {
    if p == [] then [] else ActivatedBy(p[0]) + Activated(p[1..])
  }

  lemma {:induction false} CreatedSplit(p: Plan, q: Plan)
    ensures Created(p + q) == Created(p) + Created(q)
    decreases |p|
  {
    if p == [] {
      assert p + q == q;
    } else {
      assert (p + q)[0] == p[0] && (p + q)[1..] == p[1..] + q;
      CreatedSplit(p[1..], q);
    }
  }

  lemma {:induction false} ActivatedSplit(p: Plan, q: Plan)
    ensures Activated(p + q) == Activated(p) + Activated(q)
    decreases |p|
  {
    if p == [] {
      assert p + q == q;
    } else {
      assert (p + q)[0] == p[0] && (p + q)[1..] == p[1..] + q;
      ActivatedSplit(p[1..], q);
    }
  }

  lemma MentionsSplit(p: Plan, q: Plan)
    ensures Created(p + q) == Created(p) + Created(q)
    ensures Activated(p + q) == Activated(p) + Activated(q)
  {
    CreatedSplit(p, q);
    ActivatedSplit(p, q);
  }

  lemma {:induction false} AdMentions(ads: seq<AdNode>, n: nat)
    ensures Created(AdCreates(ads, n)) == PreorderAds(ads) && Activated(AdCreates(ads, n)) == []
    ensures Activated(AdActivations(ads, n)) == PreorderAds(ads) && Created(AdActivations(ads, n)) == []
    decreases |ads|
  {
    if ads != [] {
      AdMentions(ads[1..], n + 2);
      AdMentions(ads[1..], n + 1);
      var pair := [CreateCreative(n + 1, ads[0].creative, ads[0].creativeRef), CreateAd(n + 2, ads[0].ad, ads[0].id)];
      MentionsSplit(pair, AdCreates(ads[1..], n + 2));
      assert pair[1..] == [pair[1]];
    }
  }

  lemma {:induction false} SetCreateMentions(sets: seq<SetNode>, n: nat)
    ensures Created(SetCreates(sets, n)) == PreorderSets(sets) && Activated(SetCreates(sets, n)) == []
    decreases |sets|
  {
    if sets != [] {
      var first, ads := [CreateAdSet(n + 1, sets[0].spec, sets[0].id)], AdCreates(sets[0].ads, n + 1);
      var rest := SetCreates(sets[1..], n + 1 + 2 * |sets[0].ads|);
      AdMentions(sets[0].ads, n + 1);
      SetCreateMentions(sets[1..], n + 1 + 2 * |sets[0].ads|);
      MentionsSplit(first, ads);
      MentionsSplit(first + ads, rest);
    }
  }

  lemma {:induction false} SetActivationMentions(sets: seq<SetNode>, n: nat)
    ensures Activated(SetActivations(sets, n)) == PreorderSets(sets) && Created(SetActivations(sets, n)) == []
    decreases |sets|
  {
    if sets != [] {
      var first, ads := [Activate(n + 1, AdSetType, sets[0].id)], AdActivations(sets[0].ads, n + 1);
      var rest := SetActivations(sets[1..], n + 1 + |sets[0].ads|);
      AdMentions(sets[0].ads, n + 1);
      SetActivationMentions(sets[1..], n + 1 + |sets[0].ads|);
      MentionsSplit(first, ads);
      MentionsSplit(first + ads, rest);
    }
  }

  lemma CreatesMentions(t: Tree)
    ensures Created(Creates(t)) == Preorder(t) && Activated(Creates(t)) == []
  {
    SetCreateMentions(t.sets, 1);
    MentionsSplit([CreateCampaign(1, t.spec, t.id)], SetCreates(t.sets, 1));
  }

  lemma ActivationsMentions(t: Tree)
    ensures Activated(Activations(t)) == Preorder(t) && Created(Activations(t)) == []
  {
    SetActivationMentions(t.sets, CreateCount(t) + 1);
    MentionsSplit([Activate(CreateCount(t) + 1, CampaignType, t.id)], SetActivations(t.sets, CreateCount(t) + 1));
  }

  /**
   * Both phases walk the tree parents first: what is created and what is activated is the same
   * list, so each non-creative entity is activated exactly once, after its parent.
   */
  lemma PhasesAgree(t: Tree)
    ensures Created(Flatten(t)) == Preorder(t)
    ensures Activated(Flatten(t)) == Preorder(t)
  {
    CreatesMentions(t);
    ActivationsMentions(t);
    MentionsSplit(Creates(t), Activations(t));
  }

  // ---------- Reading the tree back ----------

  function ParseAds(p: Plan): (r: (seq<AdNode>, Plan))
    ensures |r.1| <= |p|
    decreases |p|
  {
    if |p| >= 2 && p[0].CreateCreative? && p[1].CreateAd? then
      var (ads, rest) := ParseAds(p[2..]);
      ([AdNode(p[1].localId, p[0].localId, p[0].creativeSpec, p[1].adSpec)] + ads, rest)
    else
      ([], p)
  }

  function ParseSets(p: Plan): (r: (seq<SetNode>, Plan))
    decreases |p|
  {
    if |p| >= 1 && p[0].CreateAdSet? then
      var (ads, afterAds) := ParseAds(p[1..]);
      var (sets, rest) := ParseSets(afterAds);
      ([SetNode(p[0].localId, p[0].adSetSpec, ads)] + sets, rest)
    else
      ([], p)
  }

  /** Reads the create steps into a tree; refuses any plan that is not that tree laid out. */
  function Decode(p: Plan): Option<Tree> {
    if |p| >= 1 && p[0].CreateCampaign? then
      var t := Tree(p[0].localId, p[0].campaignSpec, ParseSets(p[1..]).0);
      if Flatten(t) == p then Some(t) else None
    else
      None
  }

  lemma {:induction false} ParseAdsInverts(ads: seq<AdNode>, n: nat, rest: Plan)
    requires rest == [] || !rest[0].CreateCreative?
    ensures ParseAds(AdCreates(ads, n) + rest) == (ads, rest)
    decreases |ads|
  {
    var p := AdCreates(ads, n) + rest;
    if ads == [] {
      assert p == rest;
    } else {
      ParseAdsInverts(ads[1..], n + 2, rest);
      assert p[2..] == AdCreates(ads[1..], n + 2) + rest;
      assert p[0] == CreateCreative(n + 1, ads[0].creative, ads[0].creativeRef) && p[1] == CreateAd(n + 2, ads[0].ad, ads[0].id);
      assert ads == [ads[0]] + ads[1..];
    }
  }

  lemma {:induction false} ParseSetsInverts(sets: seq<SetNode>, n: nat, rest: Plan)
    requires rest == [] || rest[0].Activate?
    ensures ParseSets(SetCreates(sets, n) + rest) == (sets, rest)
    decreases |sets|
  {
    if sets == [] {
      assert SetCreates(sets, n) + rest == rest;
    } else {
      var m := n + 1 + 2 * |sets[0].ads|;
      var tail := SetCreates(sets[1..], m) + rest;
      ParseSetsInverts(sets[1..], m, rest);
      ParseSetStep(n + 1, sets[0], tail);
      RegroupSet(sets, n, rest);
    }
  }

  lemma RegroupSet(sets: seq<SetNode>, n: nat, rest: Plan)
    requires sets != []
    ensures SetCreates(sets, n) + rest
         == [CreateAdSet(n + 1, sets[0].spec, sets[0].id)]
            + (AdCreates(sets[0].ads, n + 1) + (SetCreates(sets[1..], n + 1 + 2 * |sets[0].ads|) + rest))
    ensures [sets[0]] + sets[1..] == sets
  {
  }

  lemma ParseSetStep(n: nat, s: SetNode, tail: Plan)
    requires tail == [] || !tail[0].CreateCreative?
    ensures ParseSets([CreateAdSet(n, s.spec, s.id)] + (AdCreates(s.ads, n) + tail))
         == ([s] + ParseSets(tail).0, ParseSets(tail).1)
  {
    var p := [CreateAdSet(n, s.spec, s.id)] + (AdCreates(s.ads, n) + tail);
    assert p[1..] == AdCreates(s.ads, n) + tail;
    ParseAdsInverts(s.ads, n, tail);
  }

  /** A plan decodes to a tree exactly when it is that tree's plan. */
  lemma DecodeIffFlatten(p: Plan, t: Tree)
    ensures Decode(p) == Some(t) <==> p == Flatten(t)
  {
    if p == Flatten(t) {
      assert p[1..] == SetCreates(t.sets, 1) + Activations(t);
      ParseSetsInverts(t.sets, 1, Activations(t));
    }
  }

  /** Equal plans come from equal call trees: the approved text pins every call and its place. */
  lemma PlanDeterminesTree(b1: Bundle, b2: Bundle)
    requires PlanOf(b1) == PlanOf(b2)
    ensures Compile(b1) == Compile(b2)
  {
    DecodeIffFlatten(PlanOf(b1), Compile(b1));
    DecodeIffFlatten(PlanOf(b1), Compile(b2));
  }

  // ---------- What the calls carry ----------

  /** Every entity is asked for PAUSED, and the campaign carries its budget under the one field its type names. */
  lemma CallsArePaused(b: Bundle)
    ensures var t := Compile(b);
      && t.spec.status == Paused
      && (b.campaign.budgetType == Daily ==> t.spec.lifetimeBudget == None && t.spec.dailyBudget.GetOr(0) == b.campaign.budgetAmount.GetOr(0))
      && (b.campaign.budgetType == Lifetime ==> t.spec.dailyBudget == None && t.spec.lifetimeBudget.GetOr(0) == b.campaign.budgetAmount.GetOr(0))
      && (forall s :: s in t.sets ==> s.spec.status == Paused && forall ad :: ad in s.ads ==> ad.ad.status == Paused)
  {
    forall s | s in Compile(b).sets ensures s.spec.status == Paused && forall ad :: ad in s.ads ==> ad.ad.status == Paused {
      var i :| 0 <= i < |b.adSets| && s == SetNodeOf(b, b.adSets[i]);
    }
  }

  /** The text of an ad as the audience will see it. */
  datatype AdText = AdText(name: string, message: string, headline: string, description: string, link: string)

  function TextOfDraft(ad: AdInfo): AdText {
    AdText(ad.creativeName, ad.primaryText.GetOr(""), ad.headline.GetOr(""), ad.description.GetOr(""), ad.destinationUrl.GetOr(""))
  }

  function TextOfCall(c: CreativeSpec): AdText { AdText(c.name, c.message, c.headline, c.description, c.linkUrl) }

  /** Two drafts with the same plan show the same text in the same ads of the same ad sets: approval pins what is seen. */
  lemma PlanPinsTexts(b1: Bundle, b2: Bundle, i: nat, k: nat)
    requires PlanOf(b1) == PlanOf(b2) && i < |b1.adSets| && k < |b1.adSets[i].ads|
    ensures |b1.adSets| == |b2.adSets| && b1.adSets[i].id == b2.adSets[i].id && b1.adSets[i].name == b2.adSets[i].name
    ensures |b1.adSets[i].ads| == |b2.adSets[i].ads| && b1.adSets[i].ads[k].id == b2.adSets[i].ads[k].id
    ensures TextOfDraft(b1.adSets[i].ads[k]) == TextOfDraft(b2.adSets[i].ads[k])
    ensures TextOfCall(Compile(b1).sets[i].ads[k].creative) == TextOfDraft(b1.adSets[i].ads[k])
  {
    hide Flatten, MapCta;
    PlanDeterminesTree(b1, b2);
    var s1, s2 := Compile(b1).sets[i], Compile(b2).sets[i];
    assert s1 == SetNodeOf(b1, b1.adSets[i]) && s2 == SetNodeOf(b2, b2.adSets[i]);
    assert s1.ads[k] == AdNodeOf(b1, b1.adSets[i].ads[k]) && s2.ads[k] == AdNodeOf(b2, b2.adSets[i].ads[k]);
  }
}
