/**
 * ab-test.ts over exact reals: the Wilson interval, the two-proportion test, the required sample
 * size, and the evaluation of two variants. `None` stands for NaN, and for Infinity in sizes.
 */
module AbStatistics {
  import opened Core

  /** The two functions of Math that are used, known only by their defining equations. */
  datatype Arith = Arith(sqrt: real -> real, exp: real -> real)

  ghost predicate IsArith(ar: Arith) {
    && (forall x :: x >= 0.0 ==> ar.sqrt(x) >= 0.0 && ar.sqrt(x) * ar.sqrt(x) == x)
    && ar.exp(0.0) == 1.0
  }

  /** Math.sqrt: NaN below zero. */
  function Sqrt(ar: Arith, x: real): Option<real> { if x < 0.0 then None else Some(ar.sqrt(x)) }

  function MaxReal(a: real, b: real): real { if a >= b then a else b }
  function MinReal(a: real, b: real): real { if a <= b then a else b }
  function Abs(x: real): real { if x < 0.0 then -x else x }

  /** Math.round and Math.ceil. */
  function Round(x: real): int { (x + 0.5).Floor }
  function Ceil(x: real): int { -((-x).Floor) }

  const MIN_TRIALS := 100
  const MIN_TOTAL_SUCCESSES := 15
  const ALPHA := 0.05
  const Z95 := 1.959964

  // ---------- The functions of the source ----------

  /** The error function's approximation at |z| / sqrt(2). */
  function ErfAt(ar: Arith, size: real): real
    requires IsArith(ar) && size >= 0.0
  {
    assert ar.sqrt(2.0) > 0.0;
    var x := size / ar.sqrt(2.0);
    assert x >= 0.0 by { QuotientNonNegative(size, ar.sqrt(2.0)); }
    var t := 1.0 / (1.0 + 0.3275911 * x);
    1.0 - ((((1.061405429 * t - 1.453152027) * t + 1.421413741) * t - 0.284496736) * t + 0.254829592) * t * ar.exp(-x * x)
  }

  function NormalCdf(ar: Arith, z: real): real
    requires IsArith(ar)
  {
    var sign := if z < 0.0 then -1.0 else 1.0;
    0.5 * (1.0 + sign * ErfAt(ar, Abs(z)))
  }

  lemma ProductNonNegative(a: real, b: real)
    requires a >= 0.0 && b >= 0.0
    ensures a * b >= 0.0
    ensures a > 0.0 && b > 0.0 ==> a * b > 0.0
  {
  }

  lemma QuotientNonNegative(a: real, b: real)
    requires a >= 0.0 && b > 0.0
    ensures a / b >= 0.0
  {
  }

  datatype ZTest = ZTest(z: Option<real>, p: Option<real>)

  /** The standard error of the difference under equal rates. */
  function PooledError(ar: Arith, s1: int, n1: int, s2: int, n2: int): Option<real>
    requires n1 > 0 && n2 > 0
  {
    var pooled := (s1 + s2) as real / (n1 + n2) as real;
    Sqrt(ar, pooled * (1.0 - pooled) * (1.0 / n1 as real + 1.0 / n2 as real))
  }

  /** Two-tailed, held within [0, 1]. */
  function PValue(ar: Arith, z: real): real
    requires IsArith(ar)
  {
    MinReal(1.0, MaxReal(0.0, 2.0 * (1.0 - NormalCdf(ar, Abs(z)))))
  }

  function TwoProportionZTest(ar: Arith, s1: int, n1: int, s2: int, n2: int): ZTest
    requires IsArith(ar)
  {
    if n1 <= 0 || n2 <= 0 then ZTest(Some(0.0), Some(1.0))
    else
      var p1, p2 := s1 as real / n1 as real, s2 as real / n2 as real;
      var se := PooledError(ar, s1, n1, s2, n2);
      if se == Some(0.0) then ZTest(Some(0.0), Some(1.0))
      else if se.None? then ZTest(None, None)
      else
        var z := (p2 - p1) / se.value;
        ZTest(Some(z), Some(PValue(ar, z)))
  }

  datatype Interval = Interval(lower: real, upper: real)

  function WilsonDenom(trials: real, z: real): (d: real)
    requires trials > 0.0
    ensures d >= 1.0
  {
    QuotientNonNegative(z * z, trials);
    1.0 + z * z / trials
  }

  function WilsonCenter(p: real, trials: real, z: real): real
    requires trials > 0.0
  {
    (p + z * z / (2.0 * trials)) / WilsonDenom(trials, z)
  }

  function WilsonMargin(root: real, trials: real, z: real): real
    requires trials > 0.0
  {
    z * root / WilsonDenom(trials, z)
  }

  function WilsonRadicand(p: real, trials: real, z: real): real
    requires trials > 0.0
  {
    ProductNonNegative(4.0 * trials, trials);
    p * (1.0 - p) / trials + z * z / (4.0 * trials * trials)
  }

  function WilsonInterval(ar: Arith, successes: real, trials: real, z: real): Option<Interval> {
    if trials <= 0.0 then Some(Interval(0.0, 0.0))
    else
      var p := successes / trials;
      var center := WilsonCenter(p, trials, z);
      var root := Sqrt(ar, WilsonRadicand(p, trials, z));
      if root.None? then None
      else
        var margin := WilsonMargin(root.value, trials, z);
        Some(Interval(MaxReal(0.0, center - margin), MinReal(1.0, center + margin)))
  }

  function Clamp(x: real): real { MinReal(0.999, MaxReal(0.001, x)) }

  /** Math.pow(x, 2) / Math.pow(y, 2) */
  function SquaredRatio(x: real, y: real): real
    requires y != 0.0
  {
    x * x / (y * y)
  }

  function VariancePooled(p1: real, p2: real): real {
    var pBar := (p1 + p2) / 2.0;
    2.0 * pBar * (1.0 - pBar)
  }

  function VarianceApart(p1: real, p2: real): real { p1 * (1.0 - p1) + p2 * (1.0 - p2) }

  /** The standard errors under either hypothesis, weighted for 95% confidence and 80% power. */
  function ErrorScale(ar: Arith, p1: real, p2: real): real {
    1.959964 * ar.sqrt(VariancePooled(p1, p2)) + 0.841621 * ar.sqrt(VarianceApart(p1, p2))
  }

  /** Sample size for a baseline p1 and a target p2; None is Infinity. */
  function SizeFor(ar: Arith, p1: real, p2: real): Option<real> {
    var delta := Abs(p2 - p1);
    if delta == 0.0 then None
    else Some(SquaredRatio(ErrorScale(ar, p1, p2), delta))
  }

  /** The target rate that a relative effect leads to. */
  function Target(p1: real, mde: real): real { Clamp(p1 * (1.0 + mde)) }

  function RequiredSampleSize(ar: Arith, baselineRate: real, mdeRelative: real): Option<int> {
    var p1 := Clamp(baselineRate);
    var p2 := Target(p1, mdeRelative);
    var n := SizeFor(ar, p1, p2);
    if n.None? then None else Some(Ceil(n.value))
  }

  datatype Variant = Variant(id: Id, name: string, trials: real, successes: real)
  datatype Stat = Stat(id: Id, name: string, trials: nat, successes: nat, rate: real, ci: Option<Interval>)

  function StatOf(ar: Arith, v: Variant): Stat {
    var trials, successes := Max(0, Round(v.trials)), Max(0, Round(v.successes));
    Stat(v.id, v.name, trials, successes,
         if trials > 0 then successes as real / trials as real else 0.0,
         WilsonInterval(ar, successes as real, trials as real, Z95))
  }

  /** String order, character by character. */
  predicate AtMost(a: string, b: string) {
    a == "" || (b != "" && (a[0] < b[0] || (a[0] == b[0] && AtMost(a[1..], b[1..]))))
  }

  datatype AbResult = AbResult(
    metric: string,
    control: Stat,
    variant: Stat,
    winnerId: Option<Id>,
    zScore: Option<real>,
    pValue: Option<real>,
    relativeLiftPct: real,
    diffCi: Option<Interval>,
    isSignificant: bool,
    sufficientSample: bool,
    projectedDays: Option<int>)

  predicate Sufficient(control: Stat, variant: Stat) {
    && control.trials >= MIN_TRIALS && variant.trials >= MIN_TRIALS
    && control.successes + variant.successes >= MIN_TOTAL_SUCCESSES
  }

  /** The variance of the difference of two rates, each with its own. */
  function ApartVariance(p1: real, n1: int, p2: real, n2: int): real
    requires n1 > 0 && n2 > 0
  {
    p1 * (1.0 - p1) / n1 as real + p2 * (1.0 - p2) / n2 as real
  }

  /** The unpooled 95% interval of the difference of rates. */
  function DifferenceInterval(ar: Arith, control: Stat, variant: Stat): Option<Interval> {
    var p1, p2 := control.rate, variant.rate;
    var se := if control.trials > 0 && variant.trials > 0
              then Sqrt(ar, ApartVariance(p1, control.trials, p2, variant.trials))
              else Some(0.0);
    if se.None? then None else Some(Interval(p2 - p1 - Z95 * se.value, p2 - p1 + Z95 * se.value))
  }

  function ProjectedDays(ar: Arith, control: Stat, variant: Stat, significant: bool, daily: Option<real>): Option<int> {
    if significant then Some(0)
    else if daily.Some? && daily.value > 0.0 && control.rate > 0.0 && variant.rate > control.rate then
      var required := RequiredSampleSize(ar, control.rate, (variant.rate - control.rate) / control.rate);
      if required.None? then None
      else
        var fewest := if control.trials <= variant.trials then control.trials else variant.trials;
        Some(Ceil(Max(0, required.value - fewest) as real / daily.value))
    else None
  }

  function Judge(ar: Arith, control: Stat, variant: Stat, metric: string, daily: Option<real>): AbResult
    requires IsArith(ar)
  {
    var test := TwoProportionZTest(ar, control.successes, control.trials, variant.successes, variant.trials);
    var sufficient := Sufficient(control, variant);
    var significant := sufficient && test.p.Some? && test.p.value < ALPHA;
    AbResult(metric, control, variant,
             if significant then Some(variant.id) else None,
             test.z, test.p,
             if control.rate > 0.0 then (variant.rate - control.rate) / control.rate * 100.0 else 0.0,
             DifferenceInterval(ar, control, variant),
             significant, sufficient,
             ProjectedDays(ar, control, variant, significant, daily))
  }

  /** The lower rate is the control; equal rates go by id. */
  predicate IsControl(a: Stat, b: Stat) { a.rate < b.rate || (a.rate == b.rate && AtMost(a.id, b.id)) }

  function EvaluateAbTest(ar: Arith, a: Variant, b: Variant, metric: string, daily: Option<real>): AbResult
    requires IsArith(ar)
  {
    var sa, sb := StatOf(ar, a), StatOf(ar, b);
    if IsControl(sa, sb) then Judge(ar, sa, sb, metric, daily) else Judge(ar, sb, sa, metric, daily)
  }
}
