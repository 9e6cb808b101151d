/** optimization-rules.ts: the kill, scale and refresh rules, their gates, and the sorted findings. */
module OptimizationRules {
  import opened Core
  import opened World

  datatype EntityLevel = CampaignLevel | AdSetEntityLevel | AdEntityLevel

  /** Aggregated metrics of one entity; missing or non-finite values are None. */
  datatype EntityMetrics = EntityMetrics(
    entityId: Id, level: EntityLevel, spend: real, impressions: int, leads: int, conversions: int, daysLive: int,
    frequency: Option<real>, ctrPct: Option<real>, cpm: Option<real>)

  datatype RuleTargets = RuleTargets(targetCpa: real, cpmP50: real)

  datatype Severity = Info | Suggestion | Warning | Critical
  datatype RuleId = K1 | K2 | K3 | S1 | S2 | R1

  /** The numbers a verdict rests on, by name. */
  type Evidence = map<string, real>

  datatype Finding = Finding(rule: RuleId, kind: RecommendationType, severity: Severity, entityId: Id, evidence: Evidence)

  function Rank(s: Severity): nat {
    match s
    case Info => 0
    case Suggestion => 1
    case Warning => 2
    case Critical => 3
  }

  // ---------- Gates and rules ----------

  predicate AdGatePassed(m: EntityMetrics) { m.impressions >= 8000 || m.daysLive >= 4 }

  predicate ConversionGatePassed(m: EntityMetrics, t: RuleTargets) { m.spend >= 3.0 * t.targetCpa && m.daysLive >= 4 }

  function Results(m: EntityMetrics): int { if m.conversions != 0 then m.conversions else m.leads }

  function Cpa(m: EntityMetrics): Option<real> {
    if Results(m) > 0 then Some(m.spend / Results(m) as real) else None
  }

  /** Two decimals. */
  function Rounded(x: real): real { (x * 100.0 + 0.5).Floor as real / 100.0 }

  function RuleK1(m: EntityMetrics, t: RuleTargets): (f: Option<Finding>)
    ensures f.Some? ==> f.value.kind == KillAd && f.value.entityId == m.entityId
  {
    if m.spend >= 3.0 * t.targetCpa && Results(m) == 0 then Some(Finding(K1, KillAd, Critical, m.entityId,
                   map["spend" := Rounded(m.spend), "results" := 0.0, "targetCpa" := t.targetCpa])) else None
  }

  function RuleK2(m: EntityMetrics, t: RuleTargets): (f: Option<Finding>)
    ensures f.Some? ==> f.value.kind == KillAd && f.value.entityId == m.entityId
  {
    if Cpa(m).Some? && m.spend >= 5.0 * t.targetCpa && Cpa(m).value > 2.0 * t.targetCpa then
      Some(Finding(K2, KillAd, Warning, m.entityId,
                   map["cpa" := Rounded(Cpa(m).value), "targetCpa" := t.targetCpa, "spend" := Rounded(m.spend)]))
    else None
  }

  function RuleK3(m: EntityMetrics, t: RuleTargets): (f: Option<Finding>)
    ensures f.Some? ==> f.value.kind == RefreshCreative && f.value.entityId == m.entityId
  {
    if m.level == AdEntityLevel && m.impressions >= 8000 && m.ctrPct.Some? && m.ctrPct.value < 0.5
       && m.cpm.Some? && m.cpm.value > t.cpmP50
    then Some(Finding(K3, RefreshCreative, Warning, m.entityId,
                   map["ctr" := m.ctrPct.value, "impressions" := m.impressions as real, "cpm" := Rounded(m.cpm.value)]))
    else None
  }

  function RuleS1(m: EntityMetrics, t: RuleTargets): (f: Option<Finding>)
    ensures f.Some? ==> f.value.kind == ScaleBudget && f.value.entityId == m.entityId
  {
    if Cpa(m).Some? && Results(m) >= 5 && m.daysLive >= 3 && Cpa(m).value <= 0.8 * t.targetCpa then
      Some(Finding(S1, ScaleBudget, Suggestion, m.entityId,
                   map["cpa" := Rounded(Cpa(m).value), "targetCpa" := t.targetCpa, "results" := Results(m) as real]))
    else None
  }

  function RuleS2(m: EntityMetrics, t: RuleTargets): (f: Option<Finding>)
    ensures f.Some? ==> f.value.kind == ScaleBudget && f.value.entityId == m.entityId
  {
    if Cpa(m).Some? && Results(m) >= 10 && Cpa(m).value <= 0.6 * t.targetCpa then
      Some(Finding(S2, ScaleBudget, Suggestion, m.entityId,
                   map["cpa" := Rounded(Cpa(m).value), "targetCpa" := t.targetCpa, "results" := Results(m) as real]))
    else None
  }

  function RuleR1(m: EntityMetrics): (f: Option<Finding>)
    ensures f.Some? ==> f.value.kind == RefreshCreative && f.value.entityId == m.entityId
  {
    if m.frequency.Some? && m.frequency.value > 3.5 then Some(Finding(R1, RefreshCreative, Suggestion, m.entityId,
                   map["frequency" := m.frequency.value])) else None
  }

  // ---------- The reference: which finding of each type an entity gets ----------

  function FirstOf(a: Option<Finding>, b: Option<Finding>): Option<Finding> { if a.Some? then a else b }
  function When(gate: bool, f: Option<Finding>): Option<Finding> { if gate then f else None }

  /** Per type, the first rule in line that fires behind its gate. */
  function KillOf(m: EntityMetrics, t: RuleTargets): Option<Finding> {
    When(ConversionGatePassed(m, t), FirstOf(RuleK1(m, t), RuleK2(m, t)))
  }
  function RefreshOf(m: EntityMetrics, t: RuleTargets): Option<Finding> {
    When(AdGatePassed(m), FirstOf(RuleK3(m, t), RuleR1(m)))
  }
  function ScaleOf(m: EntityMetrics, t: RuleTargets): Option<Finding> {
    When(m.daysLive >= 3, FirstOf(RuleS2(m, t), RuleS1(m, t)))
  }

  function ToSeq(f: Option<Finding>): seq<Finding> { if f.Some? then [f.value] else [] }

  function FindingsOf(m: EntityMetrics, t: RuleTargets): seq<Finding> {
    ToSeq(KillOf(m, t)) + ToSeq(RefreshOf(m, t)) + ToSeq(ScaleOf(m, t))
  }

  function AllFindings(entities: seq<EntityMetrics>, t: RuleTargets): seq<Finding> {
    if entities == [] then [] else AllFindings(entities[..|entities| - 1], t) + FindingsOf(entities[|entities| - 1], t)
  }

  // ---------- Stable sorting by severity ----------

  function WithRank(fs: seq<Finding>, r: nat): seq<Finding> {
    if fs == [] then [] else (if Rank(fs[0].severity) == r then [fs[0]] else []) + WithRank(fs[1..], r)
  }

  /** Array.prototype.sort is stable, so sorting by four ranks lays the four groups end to end. */
  function SortedBySeverity(fs: seq<Finding>): seq<Finding> {
    WithRank(fs, 3) + WithRank(fs, 2) + WithRank(fs, 1) + WithRank(fs, 0)
  }

  // ---------- evaluateRules ----------

  method Push(f: Option<Finding>, findings: seq<Finding>, seen: set<RecommendationType>)
    returns (findings': seq<Finding>, seen': set<RecommendationType>)
    ensures var g := When(f.Some? && f.value.kind !in seen, f);
      findings' == findings + ToSeq(g) && seen' == if g.Some? then seen + {g.value.kind} else seen
  {
    findings', seen' := findings, seen;
    if f.Some? && f.value.kind !in seen {
      findings' := findings + [f.value];
      seen' := seen + {f.value.kind};
    }
  }

  /** Two rules of one type in line: the second counts only when the first does not fire. */
  method PushInLine(first: Option<Finding>, second: Option<Finding>, kind: RecommendationType,
                    findings: seq<Finding>, seen: set<RecommendationType>)
    returns (findings': seq<Finding>, seen': set<RecommendationType>)
    requires kind !in seen
    requires (first.Some? ==> first.value.kind == kind) && (second.Some? ==> second.value.kind == kind)
    ensures findings' == findings + ToSeq(FirstOf(first, second)) && seen' <= seen + {kind}
  {
    findings', seen' := Push(first, findings, seen);
    findings', seen' := Push(second, findings', seen');
  }

  method EvaluateEntity(m: EntityMetrics, t: RuleTargets, before: seq<Finding>) returns (findings: seq<Finding>)
    ensures findings == before + FindingsOf(m, t)
  {
    hide RuleK1, RuleK2, RuleK3, RuleS1, RuleS2, RuleR1, ConversionGatePassed, AdGatePassed, ToSeq, FirstOf;
    findings := before;
    var seen: set<RecommendationType> := {};
    if ConversionGatePassed(m, t) {
      findings, seen := PushInLine(RuleK1(m, t), RuleK2(m, t), KillAd, findings, seen);
    }
    ghost var killed := Gated(before, findings, ConversionGatePassed(m, t), FirstOf(RuleK1(m, t), RuleK2(m, t)));
    if AdGatePassed(m) {
      findings, seen := PushInLine(RuleK3(m, t), RuleR1(m), RefreshCreative, findings, seen);
    }
    ghost var refreshed := Gated(killed, findings, AdGatePassed(m), FirstOf(RuleK3(m, t), RuleR1(m)));
    if m.daysLive >= 3 {
      findings, seen := PushInLine(RuleS2(m, t), RuleS1(m, t), ScaleBudget, findings, seen);
    }
    ghost var scaled := Gated(refreshed, findings, m.daysLive >= 3, FirstOf(RuleS2(m, t), RuleS1(m, t)));
    Regroup(before, ToSeq(KillOf(m, t)), ToSeq(RefreshOf(m, t)), ToSeq(ScaleOf(m, t)));
  }

  lemma Gated(before: seq<Finding>, after: seq<Finding>, gate: bool, f: Option<Finding>) returns (same: seq<Finding>)
    requires after == if gate then before + ToSeq(f) else before
    ensures same == after == before + ToSeq(When(gate, f))
  {
    same := after;
  }

  lemma Regroup(a: seq<Finding>, b: seq<Finding>, c: seq<Finding>, d: seq<Finding>)
    ensures a + b + c + d == a + (b + c + d)
  {
  }

  method EvaluateRules(entities: seq<EntityMetrics>, targets: RuleTargets) returns (sorted: seq<Finding>)
    ensures sorted == SortedBySeverity(AllFindings(entities, targets))
  {
    var findings: seq<Finding> := [];
    for i := 0 to |entities|
      invariant findings == AllFindings(entities[..i], targets)
    {
      assert entities[..i + 1][..i] == entities[..i];
      findings := EvaluateEntity(entities[i], targets, findings);
    }
    assert entities[..|entities|] == entities;
    return SortedBySeverity(findings);
  }

  // ---------- Coherence of one entity ----------

  lemma QuotientBounds(spend: real, n: int, bound: real)
    requires n > 0
    ensures spend / n as real <= bound <==> spend <= bound * n as real
  {
    var q, d := spend / n as real, n as real;
    assert q * d == spend;
    if q <= bound { assert (bound - q) * d >= 0.0; } else { assert (q - bound) * d > 0.0; }
  }

  /** Kill and scale verdicts exclude each other, whatever the targets and metrics. */
  lemma NeverKillAndScale(m: EntityMetrics, t: RuleTargets)
    ensures KillOf(m, t).None? || ScaleOf(m, t).None?
  {
    if KillOf(m, t).Some? && ScaleOf(m, t).Some? {
      var n, c := Results(m), t.targetCpa;
      assert n >= 5 && Cpa(m).Some? && Cpa(m).value > 2.0 * c;
      if n >= 10 && Cpa(m).value <= 0.6 * c {
        CheapMeansGateShut(m.spend, n, 0.6, c);
      } else {
        CheapMeansGateShut(m.spend, n, 0.8, c);
      }
      assert false;
    }
  }

  /** A cost per result both above 2c and below k c needs c < 0, and then the spend is below the gate. */
  lemma CheapMeansGateShut(spend: real, n: int, k: real, c: real)
    requires n >= 5 && 0.6 <= k <= 0.8 && (n >= 10 || k == 0.8)
    requires spend / n as real > 2.0 * c && spend / n as real <= k * c
    ensures spend < 3.0 * c
  {
    QuotientBounds(spend, n, k * c);
    assert c < 0.0;
    var d := n as real;
    assert k * d >= 4.0;
    assert (k * d - 4.0) * c <= 0.0;
    assert spend <= k * c * d;
  }

  /** At most one finding of each type, kill only behind the conversion gate, and S2 shadows S1. */
  lemma FindingsOfCoherent(m: EntityMetrics, t: RuleTargets)
    ensures var fs := FindingsOf(m, t);
      && (forall i, j :: 0 <= i < j < |fs| ==> fs[i].kind != fs[j].kind)
      && (forall i, j :: 0 <= i < |fs| && 0 <= j < |fs| ==> !(fs[i].kind == KillAd && fs[j].kind == ScaleBudget))
      && (forall i :: 0 <= i < |fs| ==> fs[i].entityId == m.entityId)
      && (forall i :: 0 <= i < |fs| ==> fs[i].kind == KillAd ==> ConversionGatePassed(m, t))
      && (forall i :: 0 <= i < |fs| ==> fs[i].rule == S1 ==> RuleS2(m, t).None?)
  {
    NeverKillAndScale(m, t);
  }

  // ---------- The output ----------

  lemma {:induction false} WithRankIs(fs: seq<Finding>, r: nat)
    ensures forall i :: 0 <= i < |WithRank(fs, r)| ==> Rank(WithRank(fs, r)[i].severity) == r
    decreases |fs|
  {
    if fs != [] { WithRankIs(fs[1..], r); }
  }

  lemma {:induction false} WithRankAppend(fs: seq<Finding>, gs: seq<Finding>, r: nat)
    ensures WithRank(fs + gs, r) == WithRank(fs, r) + WithRank(gs, r)
    decreases |fs|
  {
    if fs == [] {
      assert fs + gs == gs;
    } else {
      assert (fs + gs)[0] == fs[0] && (fs + gs)[1..] == fs[1..] + gs;
      WithRankAppend(fs[1..], gs, r);
      var head := if Rank(fs[0].severity) == r then [fs[0]] else [];
      Joined(head, WithRank(fs[1..], r), WithRank(gs, r));
    }
  }

  lemma Joined(a: seq<Finding>, b: seq<Finding>, c: seq<Finding>)
    ensures a + (b + c) == (a + b) + c
  {
  }

  /** Filtering a group by its own rank keeps it, by another empties it. */
  lemma {:induction false} WithRankOfGroup(fs: seq<Finding>, q: nat, r: nat)
    requires forall i :: 0 <= i < |fs| ==> Rank(fs[i].severity) == q
    ensures WithRank(fs, r) == if q == r then fs else []
    decreases |fs|
  {
    if fs != [] {
      WithRankOfGroup(fs[1..], q, r);
      assert fs == [fs[0]] + fs[1..];
    }
  }

  ghost predicate IsSorted(fs: seq<Finding>) {
    forall i, j :: 0 <= i < j < |fs| ==> Rank(fs[j].severity) <= Rank(fs[i].severity)
  }

  /** Equal severities keep their order, which also makes the two sequences permutations of each other. */
  ghost predicate SameWithinRanks(fs: seq<Finding>, gs: seq<Finding>) {
    forall r: nat :: WithRank(fs, r) == WithRank(gs, r)
  }

  /** The output is sorted by severity, most severe first, and stable. */
  lemma SortIsStable(fs: seq<Finding>)
    ensures IsSorted(SortedBySeverity(fs)) && SameWithinRanks(fs, SortedBySeverity(fs))
  {
    var a, b, c, d := WithRank(fs, 3), WithRank(fs, 2), WithRank(fs, 1), WithRank(fs, 0);
    WithRankIs(fs, 3);
    WithRankIs(fs, 2);
    WithRankIs(fs, 1);
    WithRankIs(fs, 0);
    forall r: nat ensures WithRank(fs, r) == WithRank(SortedBySeverity(fs), r) { GroupsKeepRank(fs, r); }
  }

  lemma GroupsKeepRank(fs: seq<Finding>, r: nat)
    ensures WithRank(fs, r) == WithRank(SortedBySeverity(fs), r)
  {
    hide WithRank;
    var a, b, c, d := WithRank(fs, 3), WithRank(fs, 2), WithRank(fs, 1), WithRank(fs, 0);
    WithRankIs(fs, 3);
    WithRankIs(fs, 2);
    WithRankIs(fs, 1);
    WithRankIs(fs, 0);
    WithRankAppend(a + b + c, d, r);
    WithRankAppend(a + b, c, r);
    WithRankAppend(a, b, r);
    WithRankOfGroup(a, 3, r);
    WithRankOfGroup(b, 2, r);
    WithRankOfGroup(c, 1, r);
    WithRankOfGroup(d, 0, r);
    if r > 3 { NoHigherRank(fs, r); }
  }

  lemma {:induction false} NoHigherRank(fs: seq<Finding>, r: nat)
    requires r > 3
    ensures WithRank(fs, r) == []
    decreases |fs|
  {
    if fs != [] { NoHigherRank(fs[1..], r); }
  }

  /** Those two properties leave no choice: every sorted sequence that is the same within ranks is this one. */
  lemma {:induction false} SortIsUnique(fs: seq<Finding>, gs: seq<Finding>)
    requires IsSorted(gs) && IsSorted(fs) && SameWithinRanks(fs, gs)
    ensures fs == gs
    decreases |fs|
  {
    var first := if gs == [] then 0 else Rank(gs[0].severity);
    assert WithRank(fs, first) == WithRank(gs, first);
    if fs != [] {
      var r := Rank(fs[0].severity);
      assert WithRank(fs, r) == WithRank(gs, r) && fs[0] == WithRank(fs, r)[0];
      assert gs != [];
      var q := Rank(gs[0].severity);
      assert WithRank(fs, q) == WithRank(gs, q);
      RankAtMostFirst(fs, q);
      RankAtMostFirst(gs, r);
      assert q == r && fs[0] == gs[0];
      forall p: nat ensures WithRank(fs[1..], p) == WithRank(gs[1..], p) {
        assert WithRank(fs, p) == WithRank(gs, p);
        RankOfTail(fs, p);
        RankOfTail(gs, p);
      }
      SortIsUnique(fs[1..], gs[1..]);
      assert fs == [fs[0]] + fs[1..] && gs == [gs[0]] + gs[1..];
    }
  }

  lemma RankOfTail(fs: seq<Finding>, r: nat)
    requires fs != []
    ensures Rank(fs[0].severity) == r ==> WithRank(fs, r) != [] && WithRank(fs[1..], r) == WithRank(fs, r)[1..]
    ensures Rank(fs[0].severity) != r ==> WithRank(fs[1..], r) == WithRank(fs, r)
  {
  }

  /** In a sorted sequence no rank above the first one's occurs. */
  lemma {:induction false} RankAtMostFirst(fs: seq<Finding>, r: nat)
    requires IsSorted(fs) && fs != [] && WithRank(fs, r) != []
    ensures r <= Rank(fs[0].severity)
    decreases |fs|
  {
    if Rank(fs[0].severity) != r {
      RankAtMostFirst(fs[1..], r);
    }
  }

  // ---------- Coherence of the whole output ----------

  ghost predicate DistinctEntities(entities: seq<EntityMetrics>) {
    forall i, j :: 0 <= i < j < |entities| ==> entities[i].entityId != entities[j].entityId
  }

  /** No entity is told both to kill and to scale, and none gets two findings of one type. */
  ghost predicate IsCoherent(fs: seq<Finding>) {
    forall i, j :: 0 <= i < |fs| && 0 <= j < |fs| && i != j && fs[i].entityId == fs[j].entityId ==>
      fs[i].kind != fs[j].kind && !(fs[i].kind == KillAd && fs[j].kind == ScaleBudget)
  }

  /** Every finding is of one of the entities, and every kill of one past the conversion gate. */
  ghost predicate IsGrounded(fs: seq<Finding>, entities: seq<EntityMetrics>, t: RuleTargets) {
    forall i :: 0 <= i < |fs| ==> IsGroundedIn(fs[i], entities, t)
  }

  ghost predicate IsGroundedIn(f: Finding, entities: seq<EntityMetrics>, t: RuleTargets) {
    exists k :: 0 <= k < |entities| && Grounds(entities[k], f, t)
  }

  predicate Grounds(m: EntityMetrics, f: Finding, t: RuleTargets) {
    m.entityId == f.entityId && (f.kind == KillAd ==> ConversionGatePassed(m, t))
  }

  lemma {:induction false} AllFindingsCoherent(entities: seq<EntityMetrics>, t: RuleTargets)
    requires DistinctEntities(entities)
    ensures IsCoherent(AllFindings(entities, t)) && IsGrounded(AllFindings(entities, t), entities, t)
    decreases |entities|
  {
    hide FindingsOf, ConversionGatePassed;
    if entities != [] {
      var front, last := entities[..|entities| - 1], entities[|entities| - 1];
      AllFindingsCoherent(front, t);
      FindingsOfCoherent(last, t);
      var fs, gs := AllFindings(front, t), FindingsOf(last, t);
      forall i | 0 <= i < |fs| ensures fs[i].entityId != last.entityId {
        assert IsGroundedIn(fs[i], front, t);
        var k :| 0 <= k < |front| && Grounds(front[k], fs[i], t);
      }
      assert entities == front + [last];
      Grounded(fs, gs, front, last, t);
    }
  }

  lemma Grounded(fs: seq<Finding>, gs: seq<Finding>, front: seq<EntityMetrics>, last: EntityMetrics, t: RuleTargets)
    requires IsGrounded(fs, front, t)
    requires forall i :: 0 <= i < |gs| ==> Grounds(last, gs[i], t)
    ensures IsGrounded(fs + gs, front + [last], t)
  {
    var all, entities := fs + gs, front + [last];
    forall i | 0 <= i < |all| ensures IsGroundedIn(all[i], entities, t) {
      if i < |fs| {
        assert IsGroundedIn(fs[i], front, t);
        var k :| 0 <= k < |front| && Grounds(front[k], fs[i], t);
        assert Grounds(entities[k], all[i], t);
      } else {
        assert Grounds(entities[|front|], all[i], t);
      }
    }
  }

  // ---------- Sorting permutes ----------

  lemma {:induction false} GroupsAreAPermutation(fs: seq<Finding>)
    ensures multiset(SortedBySeverity(fs)) == multiset(fs)
    decreases |fs|
  {
    if fs != [] {
      GroupsAreAPermutation(fs[1..]);
      assert fs == [fs[0]] + fs[1..];
    }
  }

  /** What holds between any two findings of a sequence holds between any two of a permutation. */
  lemma CoherenceSurvives(fs: seq<Finding>, gs: seq<Finding>, entities: seq<EntityMetrics>, t: RuleTargets)
    requires IsCoherent(fs) && IsGrounded(fs, entities, t) && multiset(gs) == multiset(fs)
    ensures IsCoherent(gs) && IsGrounded(gs, entities, t)
  {
    hide ConversionGatePassed;
    forall i | 0 <= i < |gs| ensures gs[i] in fs { assert gs[i] in multiset(gs); }
    forall i, j | 0 <= i < |gs| && 0 <= j < |gs| && i != j && gs[i].entityId == gs[j].entityId
      ensures gs[i].kind != gs[j].kind && !(gs[i].kind == KillAd && gs[j].kind == ScaleBudget)
    {
      var p :| 0 <= p < |fs| && fs[p] == gs[i];
      if gs[i] == gs[j] {
        TwiceInOneTwiceInOther(gs, fs, i, j);
      } else {
        var q :| 0 <= q < |fs| && fs[q] == gs[j];
      }
    }
  }

  lemma TwiceInOneTwiceInOther(gs: seq<Finding>, fs: seq<Finding>, i: nat, j: nat)
    requires multiset(gs) == multiset(fs) && i < |gs| && j < |gs| && i != j && gs[i] == gs[j]
    ensures exists p, q :: 0 <= p < q < |fs| && fs[p] == fs[q]
  {
    CountedTwice(gs, if i < j then i else j, if i < j then j else i);
    TwoPlaces(fs, gs[i]);
  }

  lemma CountedTwice(gs: seq<Finding>, lo: nat, hi: nat)
    requires lo < hi < |gs| && gs[lo] == gs[hi]
    ensures multiset(gs)[gs[lo]] >= 2
  {
    assert gs == gs[..hi] + [gs[hi]] + gs[hi + 1..];
    assert gs[lo] in gs[..hi];
  }

  lemma {:induction false} TwoPlaces(fs: seq<Finding>, f: Finding)
    requires multiset(fs)[f] >= 2
    ensures exists p, q :: 0 <= p < q < |fs| && fs[p] == fs[q]
    decreases |fs|
  {
    var last := |fs| - 1;
    assert fs == fs[..last] + [fs[last]];
    if multiset(fs[..last])[f] >= 2 {
      TwoPlaces(fs[..last], f);
      var p, q :| 0 <= p < q < last && fs[..last][p] == fs[..last][q];
      assert fs[p] == fs[q];
    } else {
      assert f in fs[..last];
      var p :| 0 <= p < last && fs[..last][p] == f;
      assert fs[p] == fs[last];
    }
  }

  /**
   * For entities with different ids, the output of evaluateRules is a stable, severity-sorted
   * permutation of what the rules pushed; it never tells one entity both to kill and to scale, has
   * at most one finding per entity and type, and kills only past the conversion gate.
   */
  lemma OutputIsCoherent(entities: seq<EntityMetrics>, t: RuleTargets)
    requires DistinctEntities(entities)
    ensures var pushed, sorted := AllFindings(entities, t), SortedBySeverity(AllFindings(entities, t));
      && IsSorted(sorted) && SameWithinRanks(pushed, sorted) && multiset(sorted) == multiset(pushed)
      && IsCoherent(sorted) && IsGrounded(sorted, entities, t)
  {
    hide AllFindings, SortedBySeverity, IsGrounded, IsCoherent, SameWithinRanks, IsSorted;
    AllFindingsCoherent(entities, t);
    SortIsStable(AllFindings(entities, t));
    GroupsAreAPermutation(AllFindings(entities, t));
    CoherenceSurvives(AllFindings(entities, t), SortedBySeverity(AllFindings(entities, t)), entities, t);
  }

  // ---------- When the verdicts fall ----------

  /** Conversions count, and leads when there are none; a kill needs none at all, or a cost per result over twice the target. */
  lemma KillMeans(m: EntityMetrics, t: RuleTargets)
    ensures var n := if m.conversions == 0 then m.leads else m.conversions;
      KillOf(m, t).Some? <==>
        && m.spend >= 3.0 * t.targetCpa && m.daysLive >= 4
        && (n == 0 || (n > 0 && m.spend >= 5.0 * t.targetCpa && m.spend > 2.0 * t.targetCpa * n as real))
  {
    var n := Results(m);
    if n > 0 { QuotientBounds(m.spend, n, 2.0 * t.targetCpa); }
  }

  /** Scaling takes 10 results at 0.6 of the target or less, or 5 at 0.8, over three days. */
  lemma ScaleMeans(m: EntityMetrics, t: RuleTargets)
    ensures var n := if m.conversions == 0 then m.leads else m.conversions;
      ScaleOf(m, t).Some? <==>
        && m.daysLive >= 3
        && ((n >= 10 && m.spend <= 0.6 * t.targetCpa * n as real) || (n >= 5 && m.spend <= 0.8 * t.targetCpa * n as real))
  {
    var n := Results(m);
    if n > 0 {
      QuotientBounds(m.spend, n, 0.6 * t.targetCpa);
      QuotientBounds(m.spend, n, 0.8 * t.targetCpa);
    }
  }

  /** A refresh is a failing ad, or a worn-out audience, past the ad gate. */
  lemma RefreshMeans(m: EntityMetrics, t: RuleTargets)
    ensures RefreshOf(m, t).Some? <==>
      && (m.impressions >= 8000 || m.daysLive >= 4)
      && (|| (m.level == AdEntityLevel && m.impressions >= 8000 && m.ctrPct.Some? && m.ctrPct.value < 0.5
              && m.cpm.Some? && m.cpm.value > t.cpmP50)
          || (m.frequency.Some? && m.frequency.value > 3.5))
  {
  }

  // ---------- The numbers shown ----------

  /** A whole number of cents, the nearest, halves up. */
  ghost predicate IsNear(shown: real, x: real) { x - 0.005 < shown <= x + 0.005 && exists cents: int :: shown == InCents(cents) }

  function InCents(cents: int): real { cents as real / 100.0 }

  lemma RoundedIsNear(x: real)
    ensures IsNear(Rounded(x), x)
  {
    assert Rounded(x) == InCents((x * 100.0 + 0.5).Floor);
  }

  /** Whatever number a finding shows is the entity's own, money and rates to the nearest cent. */
  ghost predicate ShowsOwnNumbers(f: Finding, m: EntityMetrics, t: RuleTargets) {
    var n, e := if m.conversions == 0 then m.leads else m.conversions, f.evidence;
    && ("spend" in e ==> IsNear(e["spend"], m.spend))
    && ("results" in e ==> e["results"] == n as real)
    && ("cpa" in e ==> n > 0 && IsNear(e["cpa"], m.spend / n as real))
    && ("targetCpa" in e ==> e["targetCpa"] == t.targetCpa)
    && ("impressions" in e ==> e["impressions"] == m.impressions as real)
    && ("ctr" in e ==> m.ctrPct == Some(e["ctr"]))
    && ("cpm" in e ==> m.cpm.Some? && IsNear(e["cpm"], m.cpm.value))
    && ("frequency" in e ==> m.frequency == Some(e["frequency"]))
  }

  /** The severity and the kinds of numbers that go with each rule. */
  predicate IsReportOf(f: Finding) {
    match f.rule
    case K1 => f.kind == KillAd && f.severity == Critical && f.evidence.Keys == {"spend", "results", "targetCpa"}
    case K2 => f.kind == KillAd && f.severity == Warning && f.evidence.Keys == {"cpa", "targetCpa", "spend"}
    case K3 => f.kind == RefreshCreative && f.severity == Warning && f.evidence.Keys == {"ctr", "impressions", "cpm"}
    case S1 => f.kind == ScaleBudget && f.severity == Suggestion && f.evidence.Keys == {"cpa", "targetCpa", "results"}
    case S2 => f.kind == ScaleBudget && f.severity == Suggestion && f.evidence.Keys == {"cpa", "targetCpa", "results"}
    case R1 => f.kind == RefreshCreative && f.severity == Suggestion && f.evidence.Keys == {"frequency"}
  }

  lemma RulesShowOwnNumbers(m: EntityMetrics, t: RuleTargets, f: Finding)
    requires Some(f) in {RuleK1(m, t), RuleK2(m, t), RuleK3(m, t), RuleS1(m, t), RuleS2(m, t), RuleR1(m)}
    ensures ShowsOwnNumbers(f, m, t) && IsReportOf(f)
  {
    hide Rounded, IsNear;
    RoundedIsNear(m.spend);
    if Cpa(m).Some? { RoundedIsNear(Cpa(m).value); }
    if m.cpm.Some? { RoundedIsNear(m.cpm.value); }
  }

  /** The first rule that fires explains the verdict: every finding shows its entity's own numbers under its rule's severity. */
  lemma FindingsShowOwnNumbers(m: EntityMetrics, t: RuleTargets, f: Finding)
    requires f in FindingsOf(m, t)
    ensures ShowsOwnNumbers(f, m, t) && IsReportOf(f) && f.entityId == m.entityId
    ensures var n := if m.conversions == 0 then m.leads else m.conversions;
      && (f.rule == K1 <==> f.kind == KillAd && n == 0)
      && (f.rule == S2 <==> f.kind == ScaleBudget && n >= 10 && m.spend <= 0.6 * t.targetCpa * n as real)
      && (f.rule == K3 <==> f.kind == RefreshCreative && RuleK3(m, t).Some?)
  {
    hide RuleK1, RuleK2, RuleK3, RuleS1, RuleS2, RuleR1, ShowsOwnNumbers;
    RulesShowOwnNumbers(m, t, f);
    FirstInLine(m, t, f);
  }

  lemma FirstInLine(m: EntityMetrics, t: RuleTargets, f: Finding)
    requires f in FindingsOf(m, t)
    ensures var n := if m.conversions == 0 then m.leads else m.conversions;
      && (f.rule == K1 <==> f.kind == KillAd && n == 0)
      && (f.rule == S2 <==> f.kind == ScaleBudget && n >= 10 && m.spend <= 0.6 * t.targetCpa * n as real)
      && (f.rule == K3 <==> f.kind == RefreshCreative && RuleK3(m, t).Some?)
  {
    hide RuleK1, RuleK2, RuleK3, RuleS1, RuleS2, RuleR1;
    RuleNames(m, t);
    FiringOf(m, t);
  }

  lemma RuleNames(m: EntityMetrics, t: RuleTargets)
    ensures RuleK1(m, t).Some? ==> RuleK1(m, t).value.rule == K1
    ensures RuleK2(m, t).Some? ==> RuleK2(m, t).value.rule == K2
    ensures RuleK3(m, t).Some? ==> RuleK3(m, t).value.rule == K3
    ensures RuleS1(m, t).Some? ==> RuleS1(m, t).value.rule == S1
    ensures RuleS2(m, t).Some? ==> RuleS2(m, t).value.rule == S2
    ensures RuleR1(m).Some? ==> RuleR1(m).value.rule == R1
  {
    hide Rounded, Cpa;
  }

  lemma FiringOf(m: EntityMetrics, t: RuleTargets)
    ensures var n := if m.conversions == 0 then m.leads else m.conversions;
      && (RuleK1(m, t).Some? <==> m.spend >= 3.0 * t.targetCpa && n == 0)
      && (RuleS2(m, t).Some? <==> n >= 10 && m.spend <= 0.6 * t.targetCpa * n as real)
  {
    hide Rounded;
    var n := Results(m);
    if n > 0 { QuotientBounds(m.spend, n, 0.6 * t.targetCpa); }
  }
}
