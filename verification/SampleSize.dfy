/** The required sample size of ab-test.ts: when it is finite, and that it falls as the effect grows. */
module SampleSize {
  import opened Core
  import opened AbStatistics
  import opened Wilson

  /**
   * The size is finite unless the clamps leave no effect to detect: none was asked for, or the
   * baseline already sits at the end of the scale that the effect points to.
   */
  lemma FiniteIff(ar: Arith, baseline: real, mde: real)
    ensures RequiredSampleSize(ar, baseline, mde) == None
       <==> mde == 0.0 || (mde > 0.0 && baseline >= 0.999) || (mde < 0.0 && baseline <= 0.001)
  {
    hide SizeFor;
    var p1 := Clamp(baseline);
    TargetMoves(p1, mde);
    NoEffect(ar, p1, Target(p1, mde));
  }

  lemma TargetMoves(p1: real, mde: real)
    requires 0.001 <= p1 <= 0.999
    ensures mde > 0.0 ==> p1 <= Target(p1, mde) <= 0.999 && (Target(p1, mde) == p1 <==> p1 == 0.999)
    ensures mde < 0.0 ==> 0.001 <= Target(p1, mde) <= p1 && (Target(p1, mde) == p1 <==> p1 == 0.001)
    ensures mde == 0.0 ==> Target(p1, mde) == p1
  {
    if mde > 0.0 { ProductNonNegative(p1, mde); }
    if mde < 0.0 { ProductNonNegative(p1, -mde); }
  }

  lemma NoEffect(ar: Arith, p1: real, p2: real)
    ensures SizeFor(ar, p1, p2) == None <==> p1 == p2
  {
  }

  /** A larger effect never needs more trials: through the clamps, the roots and the ceiling. */
  lemma SizeFallsWithEffect(ar: Arith, baseline: real, m1: real, m2: real)
    requires IsArith(ar) && 0.0 < m1 <= m2
    ensures var r1, r2 := RequiredSampleSize(ar, baseline, m1), RequiredSampleSize(ar, baseline, m2);
      r1.Some? == r2.Some? && (r1.Some? ==> 0 <= r2.value <= r1.value)
  {
    hide SizeFor, SquaredRatio, Scale, IsArith, Clamp;
    var p := Clamp(baseline);
    ClampBounds(baseline);
    TargetMoves(p, m1);
    TargetMoves(p, m2);
    TargetsOrdered(p, m1, m2);
    NoEffect(ar, p, Target(p, m1));
    NoEffect(ar, p, Target(p, m2));
    if p < 0.999 {
      var d1, d2 := Target(p, m1) - p, Target(p, m2) - p;
      var s1 := SizeOfGap(ar, p, d1);
      var s2 := SizeOfGap(ar, p, d2);
      ScaledRoots(ar, p, d1, d2);
      SquaredQuotients(Scale(ar, p, d1), d1, Scale(ar, p, d2), d2);
    }
  }

  lemma ClampBounds(x: real)
    ensures 0.001 <= Clamp(x) <= 0.999
  {
  }

  lemma TargetsOrdered(p1: real, m1: real, m2: real)
    requires 0.001 <= p1 <= 0.999 && 0.0 < m1 <= m2
    ensures Target(p1, m1) <= Target(p1, m2)
  {
    ProductNonNegative(p1, m2 - m1);
    assert p1 * (1.0 + m2) - p1 * (1.0 + m1) == p1 * (m2 - m1);
  }

  // ---------- The size as a function of the gap d between the two rates ----------

  function Spread(p: real, q: real, k: real, d: real): real { (p + k * d) * (q - k * d) }

  function PooledVariance(p: real, d: real): real { 2.0 * Spread(p, 1.0 - p, 0.5, d) }
  function SplitVariance(p: real, d: real): real { Spread(p, 1.0 - p, 0.0, d) + Spread(p, 1.0 - p, 1.0, d) }

  /** The standard errors that the gap has to clear, before dividing by it. */
  function Scale(ar: Arith, p: real, d: real): real {
    1.959964 * ar.sqrt(PooledVariance(p, d)) + 0.841621 * ar.sqrt(SplitVariance(p, d))
  }

  lemma SizeOfGap(ar: Arith, p: real, d: real) returns (size: real)
    requires d > 0.0
    ensures SizeFor(ar, p, p + d) == Some(size)
    ensures size == SquaredRatio(Scale(ar, p, d), d)
  {
    hide SquaredRatio;
    ScaleIsErrorScale(ar, p, d);
    size := SizeFor(ar, p, p + d).value;
  }

  lemma ScaleIsErrorScale(ar: Arith, p: real, d: real)
    ensures ErrorScale(ar, p, p + d) == Scale(ar, p, d)
  {
    hide PooledVariance, SplitVariance, VariancePooled, VarianceApart;
    VariancesAgree(p, d);
  }

  lemma VariancesAgree(p: real, d: real)
    ensures VariancePooled(p, p + d) == PooledVariance(p, d) && VarianceApart(p, p + d) == SplitVariance(p, d)
  {
  }

  /** Both variances fall relative to the square of the gap. */
  lemma VariancesFall(p: real, d1: real, d2: real)
    requires 0.0 < d1 <= d2 && 0.0 <= p && p + d2 <= 1.0
    ensures 0.0 <= PooledVariance(p, d1) && 0.0 <= PooledVariance(p, d2)
    ensures 0.0 <= SplitVariance(p, d1) && 0.0 <= SplitVariance(p, d2)
    ensures PooledVariance(p, d2) * (d1 * d1) <= PooledVariance(p, d1) * (d2 * d2)
    ensures SplitVariance(p, d2) * (d1 * d1) <= SplitVariance(p, d1) * (d2 * d2)
  {
    hide Spread;
    var q := 1.0 - p;
    CrossProducts(p, q, 0.5, d1, d2);
    CrossProducts(p, q, 1.0, d1, d2);
    CrossProducts(p, q, 0.0, d1, d2);
  }

  /** (p + k d)(q - k d) / d^2 falls in d, since both factors over d do. */
  lemma CrossProducts(p: real, q: real, k: real, d1: real, d2: real)
    requires 0.0 < d1 <= d2 && 0.0 <= p && 0.0 <= k && k * d2 <= q
    ensures 0.0 <= Spread(p, q, k, d1) && 0.0 <= Spread(p, q, k, d2)
    ensures Spread(p, q, k, d2) * (d1 * d1) <= Spread(p, q, k, d1) * (d2 * d2)
  {
    ProductNonNegative(k, d1);
    ProductNonNegative(k, d2 - d1);
    var x1, y1, x2, y2 := p + k * d1, q - k * d1, p + k * d2, q - k * d2;
    ProductNonNegative(x1, y1);
    ProductNonNegative(x2, y2);
    assert x2 * d1 <= x1 * d2 by { ProductNonNegative(p, d2 - d1); }
    assert y2 * d1 <= y1 * d2 by { ProductNonNegative(q, d2 - d1); }
    ProductNonNegative(x2, d1);
    ProductNonNegative(y2, d1);
    var left, right := ProductsOrdered(x2 * d1, x1 * d2, y2 * d1, y1 * d2);
    assert left == x2 * y2 * (d1 * d1);
    assert right == x1 * y1 * (d2 * d2);
  }

  lemma ProductsOrdered(a: real, b: real, c: real, d: real) returns (ac: real, bd: real)
    requires 0.0 <= a <= b && 0.0 <= c <= d
    ensures ac == a * c && bd == b * d && 0.0 <= ac <= bd
  {
    ac, bd := a * c, b * d;
    ProductNonNegative(a, c);
    ProductNonNegative(b - a, d);
    ProductNonNegative(a, d - c);
  }

  lemma ScaledRoots(ar: Arith, p: real, d1: real, d2: real)
    requires IsArith(ar) && 0.0 < d1 <= d2 && 0.0 <= p && p + d2 <= 1.0
    ensures 0.0 <= Scale(ar, p, d2) && Scale(ar, p, d2) * d1 <= Scale(ar, p, d1) * d2
  {
    hide PooledVariance, SplitVariance;
    VariancesFall(p, d1, d2);
    RootsFall(ar, PooledVariance(p, d1), PooledVariance(p, d2), d1, d2);
    RootsFall(ar, SplitVariance(p, d1), SplitVariance(p, d2), d1, d2);
    var a1, b1 := ar.sqrt(PooledVariance(p, d1)), ar.sqrt(SplitVariance(p, d1));
    var a2, b2 := ar.sqrt(PooledVariance(p, d2)), ar.sqrt(SplitVariance(p, d2));
    assert Scale(ar, p, d2) * d1 == 1.959964 * (a2 * d1) + 0.841621 * (b2 * d1);
    assert Scale(ar, p, d1) * d2 == 1.959964 * (a1 * d2) + 0.841621 * (b1 * d2);
  }

  lemma RootsFall(ar: Arith, v1: real, v2: real, d1: real, d2: real)
    requires IsArith(ar) && 0.0 < d1 <= d2 && 0.0 <= v1 && 0.0 <= v2 && v2 * (d1 * d1) <= v1 * (d2 * d2)
    ensures ar.sqrt(v2) * d1 <= ar.sqrt(v1) * d2
  {
    var r1, r2 := ar.sqrt(v1), ar.sqrt(v2);
    var x2 := Product(r2, d1);
    var x1 := Product(r1, d2);
    assert x2 * x2 == v2 * (d1 * d1) by { assert (r2 * d1) * (r2 * d1) == (r2 * r2) * (d1 * d1); }
    assert x1 * x1 == v1 * (d2 * d2) by { assert (r1 * d2) * (r1 * d2) == (r1 * r1) * (d2 * d2); }
    AtMostBySquares(x2, x1);
  }

  /** From s2 / d2 <= s1 / d1 to the squares of both. */
  lemma SquaredQuotients(s1: real, d1: real, s2: real, d2: real)
    requires 0.0 < d1 <= d2 && 0.0 <= s2 && s2 * d1 <= s1 * d2
    ensures 0.0 <= SquaredRatio(s2, d2) <= SquaredRatio(s1, d1)
  {
    hide SquaredRatio;
    var t1, e1 := RatioParts(s1, d1);
    var t2, e2 := RatioParts(s2, d2);
    CrossSquares(s1, d1, s2, d2, t1, e1, t2, e2);
    QuotientsOrdered(SquaredRatio(s1, d1), e1, t1, SquaredRatio(s2, d2), e2, t2);
  }

  lemma RatioParts(s: real, d: real) returns (t: real, e: real)
    requires 0.0 < d
    ensures t == s * s && e == d * d && 0.0 <= t && 0.0 < e
    ensures SquaredRatio(s, d) * e == t
  {
    t := Square(s);
    e := Square(d);
    DivideBack(t, e);
  }

  lemma CrossSquares(s1: real, d1: real, s2: real, d2: real, t1: real, e1: real, t2: real, e2: real)
    requires 0.0 < d1 && 0.0 <= s2 && s2 * d1 <= s1 * d2
    requires t1 == s1 * s1 && e1 == d1 * d1 && t2 == s2 * s2 && e2 == d2 * d2
    ensures t2 * e1 <= t1 * e2
  {
    var x := Product(s2, d1);
    var y := s1 * d2;
    var left, right := ProductsOrdered(x, y, x, y);
    assert left == t2 * e1;
    assert right == t1 * e2;
  }

  lemma QuotientsOrdered(n1: real, e1: real, t1: real, n2: real, e2: real, t2: real)
    requires e1 > 0.0 && e2 > 0.0 && n1 * e1 == t1 && n2 * e2 == t2 && 0.0 <= t2 && t2 * e1 <= t1 * e2
    ensures 0.0 <= n2 <= n1
  {
    var e := Product(e1, e2);
    assert t2 * e1 == n2 * e && t1 * e2 == n1 * e;
    if n2 > n1 { var r := Product(n2 - n1, e); }
    if n2 < 0.0 { var r := Product(-n2, e2); }
  }

  // ---------- What the number is ----------

  lemma CeilIsLeast(x: real)
    ensures Ceil(x) as real - 1.0 < x <= Ceil(x) as real
  {
  }

  /**
   * The size is the least whole number n for which n times the squared gap between the two clamped
   * rates covers the square of the weighted standard errors.
   */
  lemma SizeIsLeast(ar: Arith, baseline: real, mde: real) returns (p1: real, p2: real, e: real)
    requires IsArith(ar) && RequiredSampleSize(ar, baseline, mde).Some?
    ensures p1 == if baseline <= 0.001 then 0.001 else if baseline >= 0.999 then 0.999 else baseline
    ensures var q := p1 * (1.0 + mde); p2 == if q <= 0.001 then 0.001 else if q >= 0.999 then 0.999 else q
    ensures e == 1.959964 * ar.sqrt(2.0 * ((p1 + p2) / 2.0) * (1.0 - (p1 + p2) / 2.0))
               + 0.841621 * ar.sqrt(p1 * (1.0 - p1) + p2 * (1.0 - p2))
    ensures var n := RequiredSampleSize(ar, baseline, mde).value as real;
      (n - 1.0) * ((p2 - p1) * (p2 - p1)) < e * e <= n * ((p2 - p1) * (p2 - p1))
  {
    hide SquaredRatio, RequiredSampleSize, ErrorScale, Clamp, Target;
    ClampIs(baseline);
    p1 := Clamp(baseline);
    p2 := Target(p1, mde);
    TargetIs(p1, mde);
    e := ErrorScale(ar, p1, p2);
    ErrorScaleIs(ar, p1, p2);
    var d := Abs(p2 - p1);
    SizeRoundsUp(ar, baseline, mde, p1, p2, d);
    var t, s := RatioParts(e, d);
    SquaredGap(p1, p2);
    var n := RequiredSampleSize(ar, baseline, mde).value as real;
    Covered(SquaredRatio(e, d), n, s, t);
  }

  lemma ClampIs(x: real)
    ensures Clamp(x) == if x <= 0.001 then 0.001 else if x >= 0.999 then 0.999 else x
  {
  }

  lemma TargetIs(p1: real, mde: real)
    ensures var q := p1 * (1.0 + mde); Target(p1, mde) == if q <= 0.001 then 0.001 else if q >= 0.999 then 0.999 else q
  {
    ClampIs(p1 * (1.0 + mde));
  }

  lemma SquaredGap(p1: real, p2: real)
    ensures Abs(p2 - p1) * Abs(p2 - p1) == (p2 - p1) * (p2 - p1)
  {
  }

  lemma ErrorScaleIs(ar: Arith, p1: real, p2: real)
    ensures ErrorScale(ar, p1, p2) == 1.959964 * ar.sqrt(2.0 * ((p1 + p2) / 2.0) * (1.0 - (p1 + p2) / 2.0))
                                    + 0.841621 * ar.sqrt(p1 * (1.0 - p1) + p2 * (1.0 - p2))
  {
    assert VariancePooled(p1, p2) == 2.0 * ((p1 + p2) / 2.0) * (1.0 - (p1 + p2) / 2.0);
  }

  lemma SizeRoundsUp(ar: Arith, baseline: real, mde: real, p1: real, p2: real, d: real)
    requires p1 == Clamp(baseline) && p2 == Target(p1, mde) && d == Abs(p2 - p1)
    requires RequiredSampleSize(ar, baseline, mde).Some?
    ensures d > 0.0
    ensures var x, n := SquaredRatio(ErrorScale(ar, p1, p2), d), RequiredSampleSize(ar, baseline, mde).value as real;
      n - 1.0 < x <= n
  {
    hide SquaredRatio, ErrorScale, Clamp, Ceil, Target;
    CeilIsLeast(SquaredRatio(ErrorScale(ar, p1, p2), d));
  }

  lemma Covered(x: real, n: real, s: real, t: real)
    requires s > 0.0 && x * s == t && n - 1.0 < x <= n
    ensures (n - 1.0) * s < t <= n * s
  {
    var r := Product(n - x, s);
    var q := Product(x - (n - 1.0), s);
    assert r == n * s - t;
    assert q == t - (n - 1.0) * s;
  }
}
