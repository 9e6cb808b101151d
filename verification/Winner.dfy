/** Who wins an A/B test: the verdict does not depend on the order of the variants, and is earned. */
module Winner {
  import opened Core
  import opened AbStatistics

  // ---------- The tie-break is a total order ----------

  lemma {:induction false} AtMostIsTotal(a: string, b: string)
    ensures AtMost(a, b) || AtMost(b, a)
    ensures AtMost(a, b) && AtMost(b, a) ==> a == b
    decreases |a|
  {
    if a != "" && b != "" && a[0] == b[0] {
      AtMostIsTotal(a[1..], b[1..]);
      assert a == [a[0]] + a[1..] && b == [b[0]] + b[1..];
    }
  }

  /** For variants with different ids, swapping the arguments changes nothing in the result. */
  lemma EvaluateIsSymmetric(ar: Arith, a: Variant, b: Variant, metric: string, daily: Option<real>)
    requires IsArith(ar) && a.id != b.id
    ensures EvaluateAbTest(ar, a, b, metric, daily) == EvaluateAbTest(ar, b, a, metric, daily)
  {
    hide Judge, WilsonInterval;
    AtMostIsTotal(a.id, b.id);
  }

  // ---------- What a winner has behind it ----------

  /** The approximation at zero: its coefficients sum to 0.999999999. */
  lemma CdfAtZero(ar: Arith)
    requires IsArith(ar)
    ensures NormalCdf(ar, 0.0) == 0.5000000005
  {
    assert ar.sqrt(2.0) > 0.0;
    assert 0.0 / ar.sqrt(2.0) == 0.0;
  }

  /** The approximation is symmetric everywhere but at zero, where it is off by half of its last digit. */
  lemma CdfIsSymmetricIff(ar: Arith, z: real)
    requires IsArith(ar)
    ensures NormalCdf(ar, z) + NormalCdf(ar, -z) == 1.0 <==> z != 0.0
  {
    hide ErfAt;
    CdfAtZero(ar);
  }

  /** Swapping the groups turns z around and leaves the two-tailed p as it is. */
  lemma TestIsTwoTailed(ar: Arith, s1: int, n1: int, s2: int, n2: int)
    requires IsArith(ar)
    ensures var t, u := TwoProportionZTest(ar, s1, n1, s2, n2), TwoProportionZTest(ar, s2, n2, s1, n1);
      && t.p == u.p && t.z.Some? == u.z.Some? && (t.z.Some? ==> u.z.value == -t.z.value)
      && (t.p.Some? ==> 0.0 <= t.p.value <= 1.0)
  {
    hide NormalCdf, PooledError;
    if n1 > 0 && n2 > 0 {
      PooledErrorSwaps(ar, s1, n1, s2, n2);
      var se := PooledError(ar, s1, n1, s2, n2);
      if se.Some? && se.value != 0.0 {
        NegatedQuotient(s2 as real / n2 as real, s1 as real / n1 as real, se.value);
      }
    }
  }

  lemma PooledErrorSwaps(ar: Arith, s1: int, n1: int, s2: int, n2: int)
    requires n1 > 0 && n2 > 0
    ensures PooledError(ar, s1, n1, s2, n2) == PooledError(ar, s2, n2, s1, n1)
  {
    var x, y := 1.0 / n1 as real, 1.0 / n2 as real;
    assert x + y == y + x;
  }

  lemma NegatedQuotient(a: real, b: real, e: real)
    requires e != 0.0
    ensures (b - a) / e == -((a - b) / e) && Abs((b - a) / e) == Abs((a - b) / e)
  {
    var d := a - b;
    assert b - a == -d;
    assert (-d) / e == -(d / e);
  }

  /** Equal rates are never significant. */
  lemma EqualRatesTie(ar: Arith, s1: int, n1: int, s2: int, n2: int)
    requires IsArith(ar) && n1 > 0 && n2 > 0 && s1 as real / n1 as real == s2 as real / n2 as real
    ensures var p := TwoProportionZTest(ar, s1, n1, s2, n2).p; p.Some? ==> p.value >= 0.999999999
  {
    hide NormalCdf, PooledError;
    CdfAtZero(ar);
    var se := PooledError(ar, s1, n1, s2, n2);
    if se.Some? && se.value != 0.0 { assert 0.0 / se.value == 0.0; }
  }

  /**
   * A winner is declared exactly when p is below 0.05 over at least 100 trials each and 15 successes
   * together; it is then one of the two variants and has a strictly higher rate than the other.
   */
  lemma WinnerIsEarned(ar: Arith, a: Variant, b: Variant, metric: string, daily: Option<real>)
    requires IsArith(ar)
    ensures var r := EvaluateAbTest(ar, a, b, metric, daily);
      && (r.winnerId.Some? <==> r.isSignificant)
      && (r.sufficientSample <==> r.control.trials >= 100 && r.variant.trials >= 100 && r.control.successes + r.variant.successes >= 15)
      && (r.isSignificant <==> r.sufficientSample && r.pValue.Some? && r.pValue.value < 0.05)
      && (r.isSignificant ==>
        && r.winnerId == Some(r.variant.id) && r.variant.rate > r.control.rate
        && ((r.control, r.variant) == (StatOf(ar, a), StatOf(ar, b)) || (r.control, r.variant) == (StatOf(ar, b), StatOf(ar, a)))
        && r.projectedDays == Some(0))
  {
    hide TwoProportionZTest, WilsonInterval, DifferenceInterval, ProjectedDays;
    var r := EvaluateAbTest(ar, a, b, metric, daily);
    AtMostIsTotal(a.id, b.id);
    assert r.control.rate <= r.variant.rate;
    if r.isSignificant && r.control.rate == r.variant.rate {
      EqualRatesTie(ar, r.control.successes, r.control.trials, r.variant.successes, r.variant.trials);
    }
    ProjectedWhenSignificant(ar, r.control, r.variant, r.isSignificant, daily);
  }

  lemma ProjectedWhenSignificant(ar: Arith, control: Stat, variant: Stat, significant: bool, daily: Option<real>)
    ensures significant ==> ProjectedDays(ar, control, variant, significant, daily) == Some(0)
  {
  }
}
