/** What the numbers of an A/B report mean: its z score, its intervals, its lift and its projection. */
module AbReport {
  import opened Core
  import opened AbStatistics
  import opened Wilson

  // ---------- The z score ----------

  lemma Sixth(x: real, y: real, z: real, u: real, v: real, w: real)
    ensures (x * y * z) * (u * v * w) == (x * u) * (y * v) * (z * w)
  {
  }

  /** p (1 - p) (1/a + 1/b) for p = s/n, with the divisions cleared. */
  lemma RadicandIs(p: real, q: real, h: real, s: real, f: real, n: real, ab: real)
    requires p * n == s && q * n == f && h * ab == n && n > 0.0
    ensures (p * q * h) * (n * ab) == s * f
  {
    Sixth(p, q, h, n, n, ab);
    Cancelled(p * q * h * (n * ab), s * f, n);
    assert (p * q * h) * (n * n * ab) == (p * q * h * (n * ab)) * n;
  }

  lemma Cancelled(x: real, y: real, n: real)
    requires n > 0.0
    ensures x * n == y * n ==> x == y
  {
  }

  lemma Reciprocals(a: real, b: real)
    requires a > 0.0 && b > 0.0
    ensures (1.0 / a + 1.0 / b) * (a * b) == a + b
  {
    var x, y := 1.0 / a, 1.0 / b;
    assert x * a == 1.0 && y * b == 1.0;
    assert (x + y) * (a * b) == (x * a) * b + (y * b) * a;
  }

  lemma RatesCleared(s1: real, a: real, s2: real, b: real)
    requires a > 0.0 && b > 0.0
    ensures (s2 / b - s1 / a) * (a * b) == s2 * a - s1 * b
  {
    var x, y := s1 / a, s2 / b;
    assert x * a == s1 && y * b == s2;
    assert (y - x) * (a * b) == (y * b) * a - (x * a) * b;
  }

  /** The pooled variance of the difference, with its divisions cleared. */
  function PooledVariance(s1: int, n1: int, s2: int, n2: int): real
    requires n1 > 0 && n2 > 0
  {
    var pooled := (s1 + s2) as real / (n1 + n2) as real;
    pooled * (1.0 - pooled) * (1.0 / n1 as real + 1.0 / n2 as real)
  }

  lemma PooledVarianceIs(s1: int, n1: int, s2: int, n2: int) returns (v: real)
    requires n1 > 0 && n2 > 0
    ensures v == PooledVariance(s1, n1, s2, n2)
    ensures var a, b, s := n1 as real, n2 as real, s1 as real + s2 as real;
      v * ((a + b) * (a * b)) == s * (a + b - s)
  {
    var a, b, s := n1 as real, n2 as real, s1 as real + s2 as real;
    var n, p := a + b, s / (a + b);
    v := PooledVariance(s1, n1, s2, n2);
    assert p * n == s;
    assert (1.0 - p) * n == n - s;
    Reciprocals(a, b);
    RadicandIs(p, 1.0 - p, 1.0 / a + 1.0 / b, s, n - s, n, a * b);
  }

  lemma SquaresCleared(z: real, e: real, d: real, v: real, n: real, ab: real, sf: real, dd: real)
    requires z * e == d && e * e == v && v * (n * ab) == sf && d * ab == dd
    ensures z * z * (sf * ab) == n * (dd * dd)
  {
    assert (z * z) * (e * e) == d * d;
    assert (z * z) * v * (n * ab) * ab == (d * ab) * (d * ab) * n;
    assert z * z * (sf * ab) == (z * z) * v * (n * ab) * ab;
  }

  lemma SameSign(x: real, y: real, k: real)
    requires k > 0.0 && x * k == y
    ensures (x > 0.0 <==> y > 0.0) && (x < 0.0 <==> y < 0.0)
  {
  }

  lemma ProductPositive(a: real, b: real) returns (r: real)
    requires a > 0.0 && b > 0.0
    ensures r == a * b && r > 0.0
  {
    r := a * b;
  }

  lemma ZOf(ar: Arith, s1: int, n1: int, s2: int, n2: int, v: real)
    requires IsArith(ar) && n1 > 0 && n2 > 0 && v == PooledVariance(s1, n1, s2, n2)
    ensures var z := TwoProportionZTest(ar, s1, n1, s2, n2).z;
      && (z.None? <==> v < 0.0) && (v == 0.0 ==> z == Some(0.0))
      && (v > 0.0 ==> ar.sqrt(v) > 0.0 && ar.sqrt(v) * ar.sqrt(v) == v
                      && z == Some((s2 as real / n2 as real - s1 as real / n1 as real) / ar.sqrt(v)))
  {
    hide PValue;
    assert PooledError(ar, s1, n1, s2, n2) == Sqrt(ar, v);
    if v >= 0.0 { RootIsZeroIff(ar, v); }
  }

  lemma RootIsZeroIff(ar: Arith, v: real)
    requires IsArith(ar) && v >= 0.0
    ensures ar.sqrt(v) >= 0.0 && ar.sqrt(v) * ar.sqrt(v) == v && (ar.sqrt(v) == 0.0 <==> v == 0.0)
  {
    var y := Square(ar.sqrt(v));
  }

  /** The chi-square of a table of two groups, with its divisions cleared: n (s2 f1 - s1 f2)^2 against z^2 s f n1 n2. */
  predicate IsChiSquare(z: real, s1: int, n1: int, s2: int, n2: int) {
    var cross := s2 as real * (n1 - s1) as real - s1 as real * (n2 - s2) as real;
    && z * z * ((s1 + s2) as real * (n1 - s1 + n2 - s2) as real * (n1 as real * n2 as real)) == (n1 + n2) as real * (cross * cross)
    && (z > 0.0 <==> cross > 0.0)
  }

  lemma ChiSquareFrom(z: real, s1: int, n1: int, s2: int, n2: int, n: real, sf: real, ab: real, cross: real)
    requires z * z * (sf * ab) == n * (cross * cross) && (z > 0.0 <==> cross > 0.0)
    requires n == (n1 + n2) as real && ab == n1 as real * n2 as real
    requires sf == (s1 + s2) as real * (n1 - s1 + n2 - s2) as real
    requires cross == s2 as real * (n1 - s1) as real - s1 as real * (n2 - s2) as real
    ensures IsChiSquare(z, s1, n1, s2, n2)
  {
  }

  /** The parts of the score, with the divisions cleared. */
  lemma ScoreParts(s1: int, n1: int, s2: int, n2: int, v: real) returns (d: real, n: real, sf: real, ab: real, cross: real)
    requires n1 > 0 && n2 > 0 && v == PooledVariance(s1, n1, s2, n2)
    ensures d == s2 as real / n2 as real - s1 as real / n1 as real && ab > 0.0 && n * ab > 0.0
    ensures v * (n * ab) == sf && d * ab == cross
    ensures n == (n1 + n2) as real && ab == n1 as real * n2 as real
    ensures sf == (s1 + s2) as real * (n1 - s1 + n2 - s2) as real
    ensures cross == s2 as real * (n1 - s1) as real - s1 as real * (n2 - s2) as real
  {
    hide PooledVariance;
    var u := PooledVarianceIs(s1, n1, s2, n2);
    var a, b, s := n1 as real, n2 as real, (s1 + s2) as real;
    n := a + b;
    ab := ProductPositive(a, b);
    var nab := ProductPositive(n, ab);
    assert (n1 - s1 + n2 - s2) as real == n - s;
    sf := s * (n - s);
    d := s2 as real / b - s1 as real / a;
    RatesCleared(s1 as real, a, s2 as real, b);
    CrossIs(s1, n1, s2, n2);
    cross := d * ab;
  }

  lemma ChiSquareOf(s1: int, n1: int, s2: int, n2: int, v: real, e: real)
    requires n1 > 0 && n2 > 0 && v == PooledVariance(s1, n1, s2, n2) && e > 0.0 && e * e == v
    ensures IsChiSquare((s2 as real / n2 as real - s1 as real / n1 as real) / e, s1, n1, s2, n2)
  {
    hide PooledVariance, IsChiSquare;
    var d, n, sf, ab, cross := ScoreParts(s1, n1, s2, n2, v);
    Quotient(d, e);
    var z := d / e;
    SquaresCleared(z, e, d, v, n, ab, sf, cross);
    SameSign(z, d, e);
    SameSign(d, cross, ab);
    ChiSquareFrom(z, s1, n1, s2, n2, n, sf, ab, cross);
  }

  lemma Quotient(d: real, e: real)
    requires e > 0.0
    ensures d / e * e == d
  {
  }

  /**
   * The square of z is Pearson's chi-square of the table of successes and failures, and its sign says
   * which rate is higher. There is no z, NaN in the source, exactly when the successes together exceed the trials.
   */
  lemma ZSquareIsChiSquare(ar: Arith, s1: int, n1: int, s2: int, n2: int)
    requires IsArith(ar) && n1 > 0 && n2 > 0
    ensures var z, s, f := TwoProportionZTest(ar, s1, n1, s2, n2).z, (s1 + s2) as real, (n1 - s1 + n2 - s2) as real;
      && (z.None? <==> s * f < 0.0)
      && (s * f == 0.0 ==> z == Some(0.0))
      && (s * f > 0.0 ==> z.Some? && IsChiSquare(z.value, s1, n1, s2, n2))
  {
    hide TwoProportionZTest, PooledVariance, IsArith, IsChiSquare;
    var v := PooledVariance(s1, n1, s2, n2);
    ZOf(ar, s1, n1, s2, n2, v);
    var d, n, sf, ab, cross := ScoreParts(s1, n1, s2, n2, v);
    SameSign(v, sf, n * ab);
    if v > 0.0 { ChiSquareOf(s1, n1, s2, n2, v, ar.sqrt(v)); }
  }

  lemma CrossIs(s1: int, n1: int, s2: int, n2: int)
    ensures s2 as real * (n1 - s1) as real - s1 as real * (n2 - s2) as real == s2 as real * n1 as real - s1 as real * n2 as real
  {
    var a, b, x, y := n1 as real, n2 as real, s1 as real, s2 as real;
    assert y * (a - x) - x * (b - y) == y * a - x * b;
  }

  // ---------- The statistics of one variant ----------

  /** Rounding goes to the nearest, halves up. */
  lemma RoundIsNearest(x: real)
    ensures x - 0.5 < Round(x) as real <= x + 0.5
  {
  }

  /**
   * Counts are the nearest non-negative ones, the rate is their quotient, and the reported interval holds
   * exactly the rates that the score test accepts at 95%.
   */
  lemma StatMeans(ar: Arith, v: Variant, w: real)
    requires IsArith(ar)
    ensures var s := StatOf(ar, v);
      && s.id == v.id && s.name == v.name
      && (if v.trials < 0.0 then s.trials == 0 else v.trials - 0.5 < s.trials as real <= v.trials + 0.5)
      && (if v.successes < 0.0 then s.successes == 0 else v.successes - 0.5 < s.successes as real <= v.successes + 0.5)
      && s.rate * s.trials as real == (if s.trials > 0 then s.successes as real else 0.0)
      && (0 < s.trials && s.successes <= s.trials ==>
            && s.ci.Some?
            && (s.ci.value.lower <= w <= s.ci.value.upper <==> Accepted(s.successes as real, s.trials as real, 1.959964, w)))
  {
    hide WilsonInterval, Accepted, IsArith;
    RoundIsNearest(v.trials);
    RoundIsNearest(v.successes);
    var s := StatOf(ar, v);
    if 0 < s.trials && s.successes <= s.trials {
      Quotient(s.successes as real, s.trials as real);
      WilsonIsAcceptanceSet(ar, s.successes as real, s.trials as real, 1.959964, w);
    }
  }

  // ---------- The difference, the lift and the projection ----------

  lemma ApartVarianceIs(p1: real, n1: int, p2: real, n2: int)
    requires n1 > 0 && n2 > 0
    ensures var a, b := n1 as real, n2 as real;
      ApartVariance(p1, n1, p2, n2) * (a * b) == p1 * (1.0 - p1) * b + p2 * (1.0 - p2) * a
  {
    var a, b := n1 as real, n2 as real;
    RatesCleared(-(p1 * (1.0 - p1)), a, p2 * (1.0 - p2), b);
    NegatedTerm(p1 * (1.0 - p1), a, b);
  }

  lemma NegatedTerm(x: real, a: real, b: real)
    requires a > 0.0
    ensures -x / a == -(x / a) && -x * b == -(x * b)
  {
  }

  lemma DifferenceFrom(ar: Arith, control: Stat, variant: Stat)
    requires control.trials > 0 && variant.trials > 0
    ensures var e, gap := Sqrt(ar, ApartVariance(control.rate, control.trials, variant.rate, variant.trials)), variant.rate - control.rate;
      DifferenceInterval(ar, control, variant) ==
        if e.None? then None else Some(Interval(gap - 1.959964 * e.value, gap + 1.959964 * e.value))
  {
    hide Sqrt, ApartVariance;
  }

  /** The interval of the difference holds exactly the differences within 1.959964 standard errors of the observed one. */
  lemma DifferenceMeans(ar: Arith, control: Stat, variant: Stat, d: real)
    requires IsArith(ar)
    ensures var ci, gap := DifferenceInterval(ar, control, variant), variant.rate - control.rate;
      if control.trials == 0 || variant.trials == 0 then ci == Some(Interval(gap, gap))
      else
        var v := ApartVariance(control.rate, control.trials, variant.rate, variant.trials);
        && v * (control.trials as real * variant.trials as real)
           == control.rate * (1.0 - control.rate) * variant.trials as real + variant.rate * (1.0 - variant.rate) * control.trials as real
        && (ci.None? <==> v < 0.0)
        && (ci.Some? ==> (ci.value.lower <= d <= ci.value.upper <==> (d - gap) * (d - gap) <= 1.959964 * 1.959964 * v))
  {
    hide IsArith, ApartVariance;
    if control.trials > 0 && variant.trials > 0 {
      DifferenceFrom(ar, control, variant);
      ApartVarianceIs(control.rate, control.trials, variant.rate, variant.trials);
      var v := ApartVariance(control.rate, control.trials, variant.rate, variant.trials);
      if v >= 0.0 {
        RootIsZeroIff(ar, v);
        var e := ar.sqrt(v);
        AtMostBySquares(d - (variant.rate - control.rate), 1.959964 * e);
        assert (1.959964 * e) * (1.959964 * e) == 1.959964 * 1.959964 * (e * e);
      }
    }
  }

  /** The report of two variants has a lift that leads from the control's rate to the variant's. */
  lemma LiftMeans(ar: Arith, a: Variant, b: Variant, metric: string, daily: Option<real>)
    requires IsArith(ar)
    ensures var r := EvaluateAbTest(ar, a, b, metric, daily);
      && r.metric == metric && r.control.rate <= r.variant.rate
      && (r.control.rate > 0.0 ==> r.control.rate * (1.0 + r.relativeLiftPct / 100.0) == r.variant.rate)
  {
    hide TwoProportionZTest, WilsonInterval, DifferenceInterval, ProjectedDays;
    var r := EvaluateAbTest(ar, a, b, metric, daily);
    if r.control.rate > 0.0 { Lifted(r.control.rate, r.variant.rate); }
  }

  lemma Lifted(p: real, q: real)
    requires p > 0.0
    ensures p * (1.0 + (q - p) / p * 100.0 / 100.0) == q
  {
    var x := (q - p) / p;
    assert x * p == q - p;
    assert x * 100.0 / 100.0 == x;
  }

  /** After k days the smaller variant has the required trials exactly when k is at least the projection. */
  lemma ProjectionIsLeast(ar: Arith, control: Stat, variant: Stat, daily: real, k: nat)
    requires control.rate > 0.0 && variant.rate > control.rate && daily > 0.0
    ensures var days := ProjectedDays(ar, control, variant, false, Some(daily));
      var required := RequiredSampleSize(ar, control.rate, (variant.rate - control.rate) / control.rate);
      var fewest := if control.trials <= variant.trials then control.trials else variant.trials;
      && (days.Some? <==> required.Some?)
      && (days.Some? ==> (days.value <= k <==> fewest as real + daily * k as real >= required.value as real))
  {
    hide RequiredSampleSize;
    var days := ProjectedDays(ar, control, variant, false, Some(daily));
    var required := RequiredSampleSize(ar, control.rate, (variant.rate - control.rate) / control.rate);
    var fewest := if control.trials <= variant.trials then control.trials else variant.trials;
    if required.Some? {
      CoversIff(Max(0, required.value - fewest), daily, k);
      ProductNonNegative(daily, k as real);
    }
  }

  lemma CoversIff(missing: int, daily: real, k: nat)
    requires daily > 0.0
    ensures Ceil(missing as real / daily) <= k <==> missing as real <= daily * k as real
  {
    var x := missing as real / daily;
    Quotient(missing as real, daily);
    if x <= k as real { assert (k as real - x) * daily >= 0.0; } else { assert (x - k as real) * daily > 0.0; }
  }
}
