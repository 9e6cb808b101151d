/**
 * ab-tests.service.ts, attributing Meta's live cells to the two variants of a test: by the entity
 * launched, never by position.
 */
module Attribution {
  import opened Core
  import opened MetaStore
  import opened World
  import opened AbStatistics
  import opened Winner

  /** A cell of a live study; Meta may leave out its entity. */
  datatype LiveCell = LiveCell(entity: Option<MetaId>, impressions: real, clicks: real, conversions: real)

  /** The first cell of an entity. */
  function FindByEntity(cells: seq<LiveCell>, id: Option<MetaId>): (r: Option<nat>)
    ensures r.Some? ==> r.value < |cells| && id.Some? && cells[r.value].entity == id
    ensures r.None? && id.Some? ==> forall i :: 0 <= i < |cells| ==> cells[i].entity != id
  {
    if cells == [] || id == None then None
    else if cells[0].entity == id then Some(0)
    else
      var rest := FindByEntity(cells[1..], id);
      if rest.None? then None else Some(rest.value + 1)
  }

  function VariantOf(metric: Metric, cell: LiveCell, id: Id, name: string): Variant {
    if metric == CTR then Variant(id, name, cell.impressions, cell.clicks)
    else Variant(id, name, cell.clicks, cell.conversions)
  }

  function MetricName(metric: Metric): string { if metric == CTR then "CTR" else "CVR" }

  /** The result of a test from Meta's cells, or the refusal to report one. */
  function Attribute(ar: Arith, t: AbTest, cells: seq<LiveCell>): Result<AbResult>
    requires IsArith(ar)
  {
    if |cells| < 2 then Err(NoCellData)
    else
      var a, b := FindByEntity(cells, t.cellAMetaId), FindByEntity(cells, t.cellBMetaId);
      if a.None? || b.None? || a == b then Err(AbAttributionFailed)
      else
        Ok(EvaluateAbTest(ar, VariantOf(t.metric, cells[a.value], t.cellAId, t.cellALabel),
                          VariantOf(t.metric, cells[b.value], t.cellBId, t.cellBLabel), MetricName(t.metric), None))
  }

  // ---------- Order does not matter ----------

  /** No entity is reported by two cells that differ. */
  ghost predicate Unambiguous(cells: seq<LiveCell>) {
    forall c, d :: c in cells && d in cells && c.entity.Some? && c.entity == d.entity ==> c == d
  }

  /** The cell found for an entity depends only on which cells there are. */
  lemma FoundCellIsSame(p: seq<LiveCell>, q: seq<LiveCell>, id: Option<MetaId>)
    requires Unambiguous(p) && multiset(p) == multiset(q)
    ensures var i, j := FindByEntity(p, id), FindByEntity(q, id);
      i.Some? == j.Some? && (i.Some? ==> p[i.value] == q[j.value])
  {
    assert forall c :: c in p <==> c in multiset(p);
    assert forall c :: c in q <==> c in multiset(q);
    var i, j := FindByEntity(p, id), FindByEntity(q, id);
    if i.Some? { assert p[i.value] in q; }
    if j.Some? { assert q[j.value] in p; }
  }

  lemma SameIndexIffSameId(cells: seq<LiveCell>, a: Option<MetaId>, b: Option<MetaId>)
    ensures var i, j := FindByEntity(cells, a), FindByEntity(cells, b);
      i.Some? && j.Some? ==> (i == j <==> a == b)
  {
  }

  /** However Meta orders its cells, the result, or the refusal, is the same. */
  lemma CellOrderIsIrrelevant(ar: Arith, t: AbTest, p: seq<LiveCell>, q: seq<LiveCell>)
    requires IsArith(ar) && Unambiguous(p) && multiset(p) == multiset(q)
    ensures Attribute(ar, t, p) == Attribute(ar, t, q)
  {
    hide EvaluateAbTest, FindByEntity;
    assert |p| == |multiset(p)| && |q| == |multiset(q)|;
    FoundCellIsSame(p, q, t.cellAMetaId);
    FoundCellIsSame(p, q, t.cellBMetaId);
    SameIndexIffSameId(p, t.cellAMetaId, t.cellBMetaId);
    SameIndexIffSameId(q, t.cellAMetaId, t.cellBMetaId);
  }

  /** The test with its two cells exchanged. */
  function Exchanged(t: AbTest): AbTest {
    t.(cellAId := t.cellBId, cellALabel := t.cellBLabel, cellAMetaId := t.cellBMetaId,
       cellBId := t.cellAId, cellBLabel := t.cellALabel, cellBMetaId := t.cellAMetaId)
  }

  /** Nor does it matter which of the two variants is called A. */
  lemma CellNamesAreIrrelevant(ar: Arith, t: AbTest, cells: seq<LiveCell>)
    requires IsArith(ar) && t.cellAId != t.cellBId
    ensures Attribute(ar, t, cells) == Attribute(ar, Exchanged(t), cells)
  {
    hide EvaluateAbTest;
    var a, b := FindByEntity(cells, t.cellAMetaId), FindByEntity(cells, t.cellBMetaId);
    if |cells| >= 2 && a.Some? && b.Some? && a != b {
      EvaluateIsSymmetric(ar, VariantOf(t.metric, cells[a.value], t.cellAId, t.cellALabel),
                          VariantOf(t.metric, cells[b.value], t.cellBId, t.cellBLabel), MetricName(t.metric), None);
    }
  }

  /** The winner is a variant of the test, and the cell that Meta reports for its entity has the higher rate. */
  lemma WinnerBelongsToTest(ar: Arith, t: AbTest, cells: seq<LiveCell>)
    requires IsArith(ar) && Attribute(ar, t, cells).Ok? && t.cellAId != t.cellBId
    ensures var r := Attribute(ar, t, cells).value;
      var a, b := FindByEntity(cells, t.cellAMetaId), FindByEntity(cells, t.cellBMetaId);
      && a.Some? && b.Some?
      && var sa := StatOf(ar, VariantOf(t.metric, cells[a.value], t.cellAId, t.cellALabel));
         var sb := StatOf(ar, VariantOf(t.metric, cells[b.value], t.cellBId, t.cellBLabel));
         && (r.winnerId == Some(t.cellAId) ==> sa.rate > sb.rate)
         && (r.winnerId == Some(t.cellBId) ==> sb.rate > sa.rate)
         && (r.winnerId == None || r.winnerId == Some(t.cellAId) || r.winnerId == Some(t.cellBId))
  {
    hide EvaluateAbTest, WilsonInterval;
    var a, b := FindByEntity(cells, t.cellAMetaId), FindByEntity(cells, t.cellBMetaId);
    WinnerIsEarned(ar, VariantOf(t.metric, cells[a.value], t.cellAId, t.cellALabel),
                   VariantOf(t.metric, cells[b.value], t.cellBId, t.cellBLabel), MetricName(t.metric), None);
  }

  /** With two differing cells for one entity the order does matter: the first of them is believed. */
  lemma AmbiguousCellsMatter(ar: Arith, t: AbTest, first: LiveCell, second: LiveCell, other: LiveCell)
    requires IsArith(ar) && t.metric == CTR && t.cellAId != t.cellBId
    requires first.entity == second.entity == t.cellAMetaId && other.entity == t.cellBMetaId
    requires t.cellAMetaId.Some? && t.cellBMetaId.Some? && t.cellAMetaId != t.cellBMetaId
    requires Max(0, Round(first.impressions)) != Max(0, Round(second.impressions))
    ensures Attribute(ar, t, [first, second, other]) != Attribute(ar, t, [second, first, other])
  {
    hide Judge, WilsonInterval;
    OtherComesThird(first, second, other);
    OtherComesThird(second, first, other);
    TrialsSurvive(ar, VariantOf(CTR, first, t.cellAId, t.cellALabel), VariantOf(CTR, other, t.cellBId, t.cellBLabel));
    TrialsSurvive(ar, VariantOf(CTR, second, t.cellAId, t.cellALabel), VariantOf(CTR, other, t.cellBId, t.cellBLabel));
  }

  lemma OtherComesThird(first: LiveCell, second: LiveCell, other: LiveCell)
    requires first.entity.Some? && first.entity == second.entity && other.entity.Some? && other.entity != first.entity
    ensures FindByEntity([first, second, other], first.entity) == Some(0)
    ensures FindByEntity([first, second, other], other.entity) == Some(2)
  {
    assert [first, second, other][1..] == [second, other] && [second, other][1..] == [other];
    assert FindByEntity([other], other.entity) == Some(0);
    assert FindByEntity([second, other], other.entity) == Some(1);
  }

  /** The trials of a variant can be read off the result. */
  lemma TrialsSurvive(ar: Arith, a: Variant, b: Variant)
    requires IsArith(ar) && a.id != b.id
    ensures var r := EvaluateAbTest(ar, a, b, "CTR", None);
      Max(0, Round(a.trials)) == if r.control.id == a.id then r.control.trials else r.variant.trials
  {
    hide WilsonInterval, TwoProportionZTest, DifferenceInterval, ProjectedDays;
  }

  // ---------- When there is a result ----------

  predicate Reports(cells: seq<LiveCell>, id: Option<MetaId>) { id.Some? && exists i :: 0 <= i < |cells| && cells[i].entity == id }

  lemma FoundIffReported(cells: seq<LiveCell>, id: Option<MetaId>)
    ensures FindByEntity(cells, id).Some? <==> Reports(cells, id)
  {
  }

  /** There is a result exactly when Meta reports both launched entities and they are two; below two cells there is no data. */
  lemma AttributesIff(ar: Arith, t: AbTest, cells: seq<LiveCell>)
    requires IsArith(ar)
    ensures Attribute(ar, t, cells).Ok? <==>
      |cells| >= 2 && Reports(cells, t.cellAMetaId) && Reports(cells, t.cellBMetaId) && t.cellAMetaId != t.cellBMetaId
    ensures Attribute(ar, t, cells) == Err(NoCellData) <==> |cells| <= 1
    ensures Attribute(ar, t, cells).Err? ==> Attribute(ar, t, cells).error in {NoCellData, AbAttributionFailed}
  {
    hide EvaluateAbTest, FindByEntity, Reports;
    FoundIffReported(cells, t.cellAMetaId);
    FoundIffReported(cells, t.cellBMetaId);
    SameIndexIffSameId(cells, t.cellAMetaId, t.cellBMetaId);
  }

  // ---------- Which numbers are compared ----------

  /** The numbers of a live cell that a metric puts in relation: clicks and conversions, or impressions and clicks. */
  function TrialsOf(metric: Metric, cell: LiveCell): int {
    Max(0, Round(match metric case CVR => cell.clicks case CTR => cell.impressions))
  }

  function SuccessesOf(metric: Metric, cell: LiveCell): int {
    Max(0, Round(match metric case CVR => cell.conversions case CTR => cell.clicks))
  }

  function StatWithId(r: AbResult, id: Id): Stat { if r.control.id == id then r.control else r.variant }

  /**
   * The result reports for either variant the rounded numbers of the live cell of its launched entity,
   * and the winner's cell has the strictly higher conversions per click, or clicks per impression.
   */
  lemma ResultIsFromLiveCells(ar: Arith, t: AbTest, cells: seq<LiveCell>)
    requires IsArith(ar) && Attribute(ar, t, cells).Ok? && t.cellAId != t.cellBId
    ensures var r := Attribute(ar, t, cells).value;
      var i, j := FindByEntity(cells, t.cellAMetaId), FindByEntity(cells, t.cellBMetaId);
      && i.Some? && j.Some?
      && var a, b := cells[i.value], cells[j.value];
      && StatWithId(r, t.cellAId).id == t.cellAId && StatWithId(r, t.cellBId).id == t.cellBId
      && StatWithId(r, t.cellAId).trials == TrialsOf(t.metric, a) && StatWithId(r, t.cellAId).successes == SuccessesOf(t.metric, a)
      && StatWithId(r, t.cellBId).trials == TrialsOf(t.metric, b) && StatWithId(r, t.cellBId).successes == SuccessesOf(t.metric, b)
      && (r.winnerId.Some? ==>
            && TrialsOf(t.metric, a) >= 100 && TrialsOf(t.metric, b) >= 100
            && var rateA := SuccessesOf(t.metric, a) as real / TrialsOf(t.metric, a) as real;
               var rateB := SuccessesOf(t.metric, b) as real / TrialsOf(t.metric, b) as real;
               && (r.winnerId == Some(t.cellAId) <==> rateA > rateB) && (r.winnerId == Some(t.cellBId) <==> rateB > rateA))
  {
    hide WilsonInterval, TwoProportionZTest, DifferenceInterval, ProjectedDays;
    var i, j := FindByEntity(cells, t.cellAMetaId), FindByEntity(cells, t.cellBMetaId);
    WinnerIsEarned(ar, VariantOf(t.metric, cells[i.value], t.cellAId, t.cellALabel),
                   VariantOf(t.metric, cells[j.value], t.cellBId, t.cellBLabel), MetricName(t.metric), None);
  }
}
