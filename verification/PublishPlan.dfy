/**
 * payload-builder.ts: the compiler from a campaign bundle to the flat list of Meta calls.
 *
 * `Compile` maps a bundle to a tree of call specifications, `Flatten` lays that tree out as
 * numbered steps, and `BuildPublishPlan` is the nested loop that pushes the steps one by one.
 */
module PublishPlan {
  import opened Core

  datatype Goal = Leads | Sales | Traffic | Messages | Awareness | Engagement | Remarketing

  datatype Targeting = Targeting(
    countries: Option<seq<string>>,
    ageMin: Option<int>,
    ageMax: Option<int>,
    advantageAudience: Option<bool>)

  datatype CampaignInfo = CampaignInfo(
    id: Id,
    name: string,
    goal: Option<Goal>,
    budgetType: BudgetType,
    budgetAmount: Option<int>,
    specialAdCategories: seq<string>,
    targetingDraft: Option<Targeting>)

  datatype AdInfo = AdInfo(
    id: Id,
    name: string,
    creativeId: Option<Id>,
    creativeName: string,
    primaryText: Option<string>,
    headline: Option<string>,
    description: Option<string>,
    cta: Option<string>,
    destinationUrl: Option<string>,
    imageUrl: Option<string>)

  datatype AdSetInfo = AdSetInfo(
    id: Id,
    name: string,
    optimizationGoal: Option<string>,
    billingEvent: Option<string>,
    budgetAmount: Option<int>,
    targeting: Option<Targeting>,
    ads: seq<AdInfo>)

  datatype Bundle = Bundle(
    campaign: CampaignInfo,
    adAccountId: Option<string>,
    pageId: Option<string>,
    igAccountId: Option<string>,
    pixelId: Option<string>,
    adSets: seq<AdSetInfo>)

  // ---------- What is sent to Meta ----------

  datatype EntityStatus = Paused | Active

  datatype CampaignSpec = CampaignSpec(
    name: string,
    objective: string,
    status: EntityStatus,
    specialAdCategories: seq<string>,
    dailyBudget: Option<int>,
    lifetimeBudget: Option<int>)

  datatype AdSetSpec = AdSetSpec(
    name: string,
    optimizationGoal: string,
    billingEvent: string,
    status: EntityStatus,
    countries: seq<string>,
    ageMin: int,
    ageMax: int,
    advantageAudience: bool,
    dailyBudget: Option<int>,
    pixelId: Option<string>)

  datatype CreativeSpec = CreativeSpec(
    name: string,
    pageId: string,
    instagramUserId: Option<string>,
    linkUrl: string,
    message: string,
    headline: string,
    description: string,
    callToActionType: string,
    imageUrl: Option<string>)

  datatype AdSpec = AdSpec(name: string, status: EntityStatus)

  /** One publish step. The constructor is the action together with the kind of its reference. */
  datatype Step =
    | CreateCampaign(step: nat, campaignSpec: CampaignSpec, localId: Id)
    | CreateAdSet(step: nat, adSetSpec: AdSetSpec, localId: Id)
    | CreateCreative(step: nat, creativeSpec: CreativeSpec, localId: Id)
    | CreateAd(step: nat, adSpec: AdSpec, localId: Id)
    | Activate(step: nat, kind: EntityType, localId: Id)

  type Plan = seq<Step>

  // ---------- The call tree ----------

  datatype AdNode = AdNode(id: Id, creativeRef: Id, creative: CreativeSpec, ad: AdSpec)
  datatype SetNode = SetNode(id: Id, spec: AdSetSpec, ads: seq<AdNode>)
  datatype Tree = Tree(id: Id, spec: CampaignSpec, sets: seq<SetNode>)

  // ---------- Compile: bundle to tree ----------

  function MetaObjective(g: Goal): string {
    match g
    case Leads => "OUTCOME_LEADS"
    case Sales => "OUTCOME_SALES"
    case Traffic => "OUTCOME_TRAFFIC"
    case Messages => "OUTCOME_ENGAGEMENT"
    case Awareness => "OUTCOME_AWARENESS"
    case Engagement => "OUTCOME_ENGAGEMENT"
    case Remarketing => "OUTCOME_SALES"
  }

  function OptimizationGoal(g: Goal): string {
    match g
    case Leads => "LEAD_GENERATION"
    case Sales => "OFFSITE_CONVERSIONS"
    case Traffic => "LANDING_PAGE_VIEWS"
    case Messages => "CONVERSATIONS"
    case Awareness => "REACH"
    case Engagement => "POST_ENGAGEMENT"
    case Remarketing => "OFFSITE_CONVERSIONS"
  }

  /** The call-to-action table; anything else, and nothing at all, is LEARN_MORE. */
  function MapCta(cta: Option<string>): string {
    if cta == Some("השאירו פרטים") || cta == Some("הצטרפו עכשיו") then "SIGN_UP"
    else if cta == Some("קבעו שיחה") then "BOOK_TRAVEL"
    else if cta == Some("קבלו הצעה") then "GET_OFFER"
    else if cta == Some("צרו קשר") then "CONTACT_US"
    else if cta == Some("קנו עכשיו") then "SHOP_NOW"
    else "LEARN_MORE"
  }

  /** JavaScript truthiness of an optional number or text. */
  function Truthy(v: Option<int>): Option<int> { if v == Some(0) then None else v }
  function TruthyText(v: Option<string>): Option<string> { if v == Some("") then None else v }

  const NO_TARGETING := Targeting(None, None, None, None)

  function CampaignSpecOf(c: CampaignInfo): CampaignSpec {
    CampaignSpec(
      c.name,
      if c.goal.Some? then MetaObjective(c.goal.value) else "OUTCOME_LEADS",
      Paused,
      c.specialAdCategories,
      if c.budgetType == Daily then Truthy(c.budgetAmount) else None,
      if c.budgetType == Lifetime then Truthy(c.budgetAmount) else None)
  }

  function AdSetSpecOf(b: Bundle, s: AdSetInfo): AdSetSpec {
    var own := s.targeting.GetOr(NO_TARGETING);
    var draft := b.campaign.targetingDraft.GetOr(NO_TARGETING);
    var goal := if b.campaign.goal.Some? then OptimizationGoal(b.campaign.goal.value) else "LEAD_GENERATION";
    AdSetSpec(
      s.name,
      s.optimizationGoal.GetOr(goal),
      s.billingEvent.GetOr("IMPRESSIONS"),
      Paused,
      own.countries.GetOr(draft.countries.GetOr(["IL"])),
      own.ageMin.GetOr(draft.ageMin.GetOr(18)),
      own.ageMax.GetOr(draft.ageMax.GetOr(65)),
      own.advantageAudience.GetOr(true),
      Truthy(s.budgetAmount),
      TruthyText(b.pixelId))
  }

  function CreativeSpecOf(b: Bundle, ad: AdInfo): CreativeSpec {
    CreativeSpec(
      ad.creativeName,
      b.pageId.GetOr(""),
      b.igAccountId,
      ad.destinationUrl.GetOr(""),
      ad.primaryText.GetOr(""),
      ad.headline.GetOr(""),
      ad.description.GetOr(""),
      MapCta(ad.cta),
      TruthyText(ad.imageUrl))
  }

  function AdNodeOf(b: Bundle, ad: AdInfo): AdNode {
    AdNode(ad.id, ad.creativeId.GetOr(ad.id), CreativeSpecOf(b, ad), AdSpec(ad.name, Paused))
  }

  function AdNodesOf(b: Bundle, ads: seq<AdInfo>): seq<AdNode> {
    seq(|ads|, i requires 0 <= i < |ads| => AdNodeOf(b, ads[i]))
  }

  function SetNodeOf(b: Bundle, s: AdSetInfo): SetNode {
    SetNode(s.id, AdSetSpecOf(b, s), AdNodesOf(b, s.ads))
  }

  function Compile(b: Bundle): Tree {
    Tree(b.campaign.id, CampaignSpecOf(b.campaign),
         seq(|b.adSets|, i requires 0 <= i < |b.adSets| => SetNodeOf(b, b.adSets[i])))
  }

  // ---------- Flatten: tree to numbered steps ----------

  function AdCreates(ads: seq<AdNode>, n: nat): Plan
    decreases |ads|
  {
    if ads == [] then []
    else
      [CreateCreative(n + 1, ads[0].creative, ads[0].creativeRef), CreateAd(n + 2, ads[0].ad, ads[0].id)]
      + AdCreates(ads[1..], n + 2)
  }

  function SetCreates(sets: seq<SetNode>, n: nat): Plan
    decreases |sets|
  {
    if sets == [] then []
    else
      [CreateAdSet(n + 1, sets[0].spec, sets[0].id)]
      + AdCreates(sets[0].ads, n + 1)
      + SetCreates(sets[1..], n + 1 + 2 * |sets[0].ads|)
  }

  function AdActivations(ads: seq<AdNode>, n: nat): Plan
    decreases |ads|
  {
    if ads == [] then [] else [Activate(n + 1, AdType, ads[0].id)] + AdActivations(ads[1..], n + 1)
  }

  function SetActivations(sets: seq<SetNode>, n: nat): Plan
    decreases |sets|
  {
    if sets == [] then []
    else
      [Activate(n + 1, AdSetType, sets[0].id)]
      + AdActivations(sets[0].ads, n + 1)
      + SetActivations(sets[1..], n + 1 + |sets[0].ads|)
  }

  function CountAds(sets: seq<SetNode>): nat
    decreases |sets|
  {
    if sets == [] then 0 else |sets[0].ads| + CountAds(sets[1..])
  }

  /** Number of create steps: one campaign, one per ad set, a creative and an ad per ad. */
  function CreateCount(t: Tree): nat { 1 + |t.sets| + 2 * CountAds(t.sets) }

  function Creates(t: Tree): Plan {
    [CreateCampaign(1, t.spec, t.id)] + SetCreates(t.sets, 1)
  }

  function Activations(t: Tree): Plan {
    [Activate(CreateCount(t) + 1, CampaignType, t.id)] + SetActivations(t.sets, CreateCount(t) + 1)
  }

  function Flatten(t: Tree): Plan { Creates(t) + Activations(t) }

  function PlanOf(b: Bundle): Plan { Flatten(Compile(b)) }

  // ---------- The loop of the source ----------

  lemma SetCreatesLength(sets: seq<SetNode>, n: nat)
    ensures |SetCreates(sets, n)| == |sets| + 2 * CountAds(sets)
    decreases |sets|
  {
    if sets != [] {
      AdCreatesLength(sets[0].ads, n + 1);
      SetCreatesLength(sets[1..], n + 1 + 2 * |sets[0].ads|);
    }
  }

  lemma AdCreatesLength(ads: seq<AdNode>, n: nat)
    ensures |AdCreates(ads, n)| == 2 * |ads|
    decreases |ads|
  {
    if ads != [] { AdCreatesLength(ads[1..], n + 2); }
  }

  lemma SetActivationsLength(sets: seq<SetNode>, n: nat)
    ensures |SetActivations(sets, n)| == |sets| + CountAds(sets)
    decreases |sets|
  {
    if sets != [] {
      AdActivationsLength(sets[0].ads, n + 1);
      SetActivationsLength(sets[1..], n + 1 + |sets[0].ads|);
    }
  }

  lemma AdActivationsLength(ads: seq<AdNode>, n: nat)
    ensures |AdActivations(ads, n)| == |ads|
    decreases |ads|
  {
    if ads != [] { AdActivationsLength(ads[1..], n + 1); }
  }

  lemma PushTwo(steps: Plan, x: Step, y: Step, rest: Plan)
    ensures steps + ([x, y] + rest) == steps + [x] + [y] + rest
  {
  }

  // Moving one ad set from "still to come" to "pushed" keeps the whole plan.

  lemma PushSet(steps: Plan, sets: seq<SetNode>, n: nat)
    requires sets != []
    ensures steps + SetCreates(sets, n)
         == steps + [CreateAdSet(n + 1, sets[0].spec, sets[0].id)] + AdCreates(sets[0].ads, n + 1)
            + SetCreates(sets[1..], n + 1 + 2 * |sets[0].ads|)
  {
  }

  lemma PushSetActivation(steps: Plan, sets: seq<SetNode>, n: nat)
    requires sets != []
    ensures steps + SetActivations(sets, n)
         == steps + [Activate(n + 1, AdSetType, sets[0].id)] + AdActivations(sets[0].ads, n + 1)
            + SetActivations(sets[1..], n + 1 + |sets[0].ads|)
  {
  }

  /** The builder pushes exactly the flattened tree of its bundle. */
  method BuildPublishPlan(bundle: Bundle) returns (steps: Plan)
    ensures steps == PlanOf(bundle)
  {
    hide SetCreates, SetActivations, CountAds;
    var c := bundle.campaign;
    var campaignSpec := CampaignSpec(
      c.name, if c.goal.Some? then MetaObjective(c.goal.value) else "OUTCOME_LEADS",
      Paused, c.specialAdCategories, None, None);
    if c.budgetType == Daily && c.budgetAmount.Some? && c.budgetAmount.value != 0 {
      campaignSpec := campaignSpec.(dailyBudget := c.budgetAmount);
    }
    if c.budgetType == Lifetime && c.budgetAmount.Some? && c.budgetAmount.value != 0 {
      campaignSpec := campaignSpec.(lifetimeBudget := c.budgetAmount);
    }
    var n: nat := 1;
    steps := [CreateCampaign(n, campaignSpec, c.id)];
    steps, n := PushCreates(bundle, steps, n);
    SetCreatesLength(Compile(bundle).sets, 1);
    n := n + 1;
    steps := PushActivations(bundle, steps + [Activate(n, CampaignType, c.id)], n);
  }

  /** First pass over the ad sets: the creates. */
  method PushCreates(bundle: Bundle, pushed: Plan, count: nat) returns (steps: Plan, n: nat)
    requires count == |pushed|
    ensures steps == pushed + SetCreates(Compile(bundle).sets, count)
    ensures n == |steps|
  {
    ghost var sets := Compile(bundle).sets;
    steps, n := pushed, count;
    for i := 0 to |bundle.adSets|
      invariant n == |steps|
      invariant steps + SetCreates(sets[i..], n) == pushed + SetCreates(sets, count)
    {
      var adSet := bundle.adSets[i];
      assert sets[i..][0] == SetNodeOf(bundle, adSet) && sets[i..][1..] == sets[i + 1..];
      PushSet(steps, sets[i..], n);
      n := n + 1;
      steps := steps + [CreateAdSet(n, AdSetSpecOf(bundle, adSet), adSet.id)];
      steps, n := PushAdCreates(bundle, adSet.ads, steps, n);
    }
  }

  method PushAdCreates(bundle: Bundle, ads: seq<AdInfo>, pushed: Plan, count: nat) returns (steps: Plan, n: nat)
    requires count == |pushed|
    ensures steps == pushed + AdCreates(AdNodesOf(bundle, ads), count)
    ensures n == |steps| == count + 2 * |ads|
  {
    ghost var nodes := AdNodesOf(bundle, ads);
    steps, n := pushed, count;
    for k := 0 to |ads|
      invariant n == |steps| == count + 2 * k
      invariant steps + AdCreates(nodes[k..], n) == pushed + AdCreates(nodes, count)
    {
      assert nodes[k..][0] == AdNodeOf(bundle, ads[k]) && nodes[k..][1..] == nodes[k + 1..];
      PushTwo(steps, CreateCreative(n + 1, nodes[k].creative, nodes[k].creativeRef),
              CreateAd(n + 2, nodes[k].ad, nodes[k].id), AdCreates(nodes[k + 1..], n + 2));
      n := n + 1;
      steps := steps + [CreateCreative(n, CreativeSpecOf(bundle, ads[k]), ads[k].creativeId.GetOr(ads[k].id))];
      n := n + 1;
      steps := steps + [CreateAd(n, AdSpec(ads[k].name, Paused), ads[k].id)];
    }
  }

  /** Second pass over the ad sets: the activations, top-down. */
  method PushActivations(bundle: Bundle, pushed: Plan, count: nat) returns (steps: Plan)
    ensures steps == pushed + SetActivations(Compile(bundle).sets, count)
  {
    ghost var sets := Compile(bundle).sets;
    var n: nat := count;
    steps := pushed;
    for i := 0 to |bundle.adSets|
      invariant steps + SetActivations(sets[i..], n) == pushed + SetActivations(sets, count)
    {
      var adSet := bundle.adSets[i];
      assert sets[i..][0] == SetNodeOf(bundle, adSet) && sets[i..][1..] == sets[i + 1..];
      PushSetActivation(steps, sets[i..], n);
      n := n + 1;
      steps := steps + [Activate(n, AdSetType, adSet.id)];
      steps, n := PushAdActivations(bundle, adSet.ads, steps, n);
    }
  }

  method PushAdActivations(bundle: Bundle, ads: seq<AdInfo>, pushed: Plan, count: nat) returns (steps: Plan, n: nat)
    ensures steps == pushed + AdActivations(AdNodesOf(bundle, ads), count)
    ensures n == count + |ads|
  {
    ghost var nodes := AdNodesOf(bundle, ads);
    steps, n := pushed, count;
    for k := 0 to |ads|
      invariant n == count + k
      invariant steps + AdActivations(nodes[k..], n) == pushed + AdActivations(nodes, count)
    {
      assert nodes[k..][0] == AdNodeOf(bundle, ads[k]) && nodes[k..][1..] == nodes[k + 1..];
      n := n + 1;
      steps := steps + [Activate(n, AdType, ads[k].id)];
    }
  }
}
