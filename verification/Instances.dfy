/** One small campaign, to show that the failures the other modules characterise do happen. */
module Instances {
  import opened Core
  import opened PublishPlan
  import opened PlanShape
  import opened MetaStore
  import opened Rows
  import opened PlanRun
  import opened TreeCopy
  import opened PublishSafety
  import opened World
  import opened BundleBuilder
  import opened PublishService
  import opened PublishHistory

  const ACCOUNT := Account("account", "act_1", "connection", None, None)

  const ROW := Campaign("client", "Spring", Some(Leads), Approved, None, None, Daily, Some(100), [], None)
  const AD_SET := AdSetRow("campaign", "Everyone", false, None, None, None, None, None)

  /** The ad has no creative of its own. */
  const AD := AdRow("campaign", Some("set"), None, "Ad", None, false, None, None, None, None, None, None)

  const DRAFTS := Content(map["campaign" := ROW], map["set" := AD_SET], ["set"], map["ad" := AD], ["ad"], map[])
  const ACCOUNTS: map<Id, Account> := map["client" := ACCOUNT]
  const EMPTY_META := Meta(map[], map[], 0)

  function Bundled(): Bundle { BuildBundle(DRAFTS, ACCOUNTS, "campaign") }

  lemma DraftsAreConsistent()
    ensures KeysOk(DRAFTS) && Numbered(EMPTY_META)
  {
    assert PlainId("campaign") && PlainId("set") && PlainId("ad");
  }

  /** One ad set with one ad: a plan of seven steps, of which four create. */
  lemma BundleShape()
    ensures var t := Compile(Bundled());
      && |t.sets| == 1 && |t.sets[0].ads| == 1 && t.sets[0].ads[0].id == "ad"
      && CreateCount(t) == 4 && |Flatten(t)| == 7
  {
    hide SetNodeOf, AdSetInfoOf;
    AdSetShape();
    var t := Compile(Bundled());
    assert t.sets[0] == SetNodeOf(Bundled(), AdSetInfoOf(DRAFTS, "set"));
    NodeShape(Bundled());
    assert t.sets[1..] == [];
    PlanLength(t);
  }

  lemma AdSetShape()
    ensures AdSetInfosOf(DRAFTS, "campaign") == [AdSetInfoOf(DRAFTS, "set")]
  {
    hide AdSetInfoOf;
    assert ["set"][1..] == [];
    assert AdSetsOf(DRAFTS, ["set"], "campaign") == ["set"];
  }

  lemma NodeShape(b: Bundle)
    ensures var s := SetNodeOf(b, AdSetInfoOf(DRAFTS, "set")); |s.ads| == 1 && s.ads[0].id == "ad"
  {
    assert ["ad"][1..] == [];
    assert AdsOf(DRAFTS, ["ad"], "set") == ["ad"];
  }

  /** A complete run of consistent drafts can send an ad without its creative. */
  lemma UnlinkedAdHappens()
    ensures KeysOk(DRAFTS)
    ensures SomeUnlinkedAd(EMPTY_META, RunSteps(Start(EMPTY_META, DRAFTS), Job("campaign", "account"), Flatten(Compile(Bundled()))).meta)
  {
    hide RunSteps, Flatten, Compile, BuildBundle, KeysOk;
    DraftsAreConsistent();
    BundleIsPublishable(DRAFTS, ACCOUNTS, "campaign", EMPTY_META, "account");
    BundleShape();
    var t := Compile(Bundled());
    assert t.sets[0] in t.sets && t.sets[0].ads[0] in t.sets[0].ads && !HasCreative(DRAFTS, "ad");
    UnlinkedAdIff(EMPTY_META, DRAFTS, Job("campaign", "account"), t);
  }

  /** The campaign with an approval of exactly its plan. */
  function Ready(): World {
    var payload := PublishPayload(CurrentPlan(DRAFTS, ACCOUNTS, "campaign"));
    var approval := Approval(CampaignPublish("campaign"), payload, HashOf(payload), APPROVED, "maker", Some("approver"), 1, 10);
    World(DRAFTS, ACCOUNTS, [approval], [], map[], map[], map[], EMPTY_META, map[])
  }

  /** Everything works but one connector call. */
  function OneCallFails(at: nat): Env {
    Env(5, true, true, true, true, true, true, true, true, [], CallFails(at, false), true, true)
  }

  lemma ReadyPasses(env: Env)
    requires env.now == 5
    ensures PublishGuard(Ready(), "campaign", env) == Ok(0)
  {
    hide CurrentPlan;
    assert Ready().approvals[..0] == [];
    assert LatestApproved(Ready().approvals, "campaign") == Some(0);
  }

  /**
   * The sixth call of seven fails: the campaign is ACTIVE on Meta, its ad set and ad are PAUSED, the
   * request has failed, and the row says ERROR.
   */
  lemma HalfActivatedPublishHappens()
    ensures var (v, r) := PublishSpec(Ready(), "campaign", OneCallFails(5));
      && r.Err? && HalfActivated(EMPTY_META, v.meta)
      && "campaign" in v.content.campaigns && v.content.campaigns["campaign"].status == Failed
  {
    hide PublishSpec, Compile, BuildBundle, Flatten, KeysOk, PublishGuard, HalfActivated;
    DraftsAreConsistent();
    BundleShape();
    var w, env := Ready(), OneCallFails(5);
    ReadyPasses(env);
    PublishHalfActivatesIff(w, "campaign", env);
    PublishSucceedsIff(w, "campaign", env, 0);
    PublishStatusIs(w, "campaign", env, 0);
  }
}
