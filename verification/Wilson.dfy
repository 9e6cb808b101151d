/** The Wilson interval of ab-test.ts: exactly the rates that the score test accepts. */
module Wilson {
  import opened Core
  import opened AbStatistics

  /** w is accepted: the observed rate is within z standard errors computed at w. */
  predicate Accepted(s: real, n: real, z: real, w: real)
    requires n > 0.0
  {
    Within(s / n, w, ScoreVariance(z, w, n))
  }

  predicate Within(p: real, w: real, bound: real) { (p - w) * (p - w) <= bound }

  /** The square of z standard errors of a rate w over n trials. */
  function ScoreVariance(z: real, w: real, n: real): real
    requires n > 0.0
  {
    z * z * (w * (1.0 - w)) / n
  }

  /** The algebra: with a = z^2/n and T = z*root, both sides differ by the factor 1 + a. */
  lemma ScoreAlgebra(p: real, a: real, t: real, w: real)
    requires t * t == a * p * (1.0 - p) + a * a / 4.0
    ensures var x := w * (1.0 + a) - p - a / 2.0;
      x * x - t * t == (1.0 + a) * ((p - w) * (p - w) - a * (w * (1.0 - w)))
  {
  }

  lemma AtMostBySquares(x: real, t: real)
    requires t >= 0.0
    ensures -t <= x <= t <==> x * x <= t * t
  {
    if x > t { assert x * x > t * t by { assert x * x > x * t >= t * t; } }
    if x < -t { assert x * x > t * t by { assert (-x) * (-x) > (-x) * t >= t * t; } }
    if -t <= x <= t { assert x * x <= t * t by { assert (t - x) * (t + x) >= 0.0; } }
  }

  lemma ProductSign(d: real, y: real)
    requires d > 0.0
    ensures d * y <= 0.0 <==> y <= 0.0
    ensures d * y == 0.0 <==> y == 0.0
  {
  }

  /** Centre, margin and root of the interval in terms of p, a and t. */
  lemma WilsonParts(ar: Arith, s: real, n: real, z: real) returns (p: real, a: real, t: real, center: real, margin: real)
    requires IsArith(ar) && n > 0.0 && 0.0 <= s <= n && z >= 0.0
    ensures p == s / n && 0.0 <= p <= 1.0
    ensures a == z * z / n && a >= 0.0
    ensures t >= 0.0 && t * t == a * p * (1.0 - p) + a * a / 4.0
    ensures center * (1.0 + a) == p + a / 2.0 && margin * (1.0 + a) == t && margin >= 0.0
    ensures WilsonInterval(ar, s, n, z) == Some(Interval(MaxReal(0.0, center - margin), MinReal(1.0, center + margin)))
  {
    hide IsArith, Sqrt, WilsonRadicand, MaxReal, MinReal;
    p, a := s / n, z * z / n;
    RateBounds(s, n);
    QuotientNonNegative(z * z, n);
    var root := WilsonRoot(ar, p, n, z, a);
    t := z * root;
    ProductNonNegative(z, root);
    var denom := WilsonDenom(n, z);
    assert denom == 1.0 + a;
    center := WilsonCenter(p, n, z);
    margin := WilsonMargin(root, n, z);
    HalfQuotient(z * z, n);
    DivideBack(p + a / 2.0, denom);
    DivideBack(t, denom);
    QuotientNonNegative(t, denom);
    IntervalIs(ar, s, n, z, root, center, margin);
  }

  lemma DivideBack(x: real, d: real)
    requires d > 0.0
    ensures x / d * d == x
  {
  }

  lemma IntervalIs(ar: Arith, s: real, n: real, z: real, root: real, center: real, margin: real)
    requires n > 0.0 && Sqrt(ar, WilsonRadicand(s / n, n, z)) == Some(root)
    requires center == WilsonCenter(s / n, n, z) && margin == WilsonMargin(root, n, z)
    ensures WilsonInterval(ar, s, n, z) == Some(Interval(MaxReal(0.0, center - margin), MinReal(1.0, center + margin)))
  {
    hide WilsonRadicand, WilsonCenter, WilsonMargin, Sqrt, MaxReal, MinReal;
  }

  lemma WilsonRoot(ar: Arith, p: real, n: real, z: real, a: real) returns (root: real)
    requires IsArith(ar) && n > 0.0 && 0.0 <= p <= 1.0 && a == z * z / n
    ensures Sqrt(ar, WilsonRadicand(p, n, z)) == Some(root) && root >= 0.0
    ensures (z * root) * (z * root) == a * p * (1.0 - p) + a * a / 4.0
  {
    ProductNonNegative(p, 1.0 - p);
    QuotientNonNegative(p * (1.0 - p), n);
    SquareQuotientNonNegative(z, n);
    root := ar.sqrt(WilsonRadicand(p, n, z));
    RootTimes(z, root, p, n, a);
  }

  /** Stated through variables: the solver rewrites a bare z * z > 0.0 away. */
  lemma Product(a: real, b: real) returns (r: real)
    requires (a >= 0.0 && b >= 0.0) || (a <= 0.0 && b <= 0.0)
    ensures r == a * b && r >= 0.0 && (a != 0.0 && b != 0.0 ==> r > 0.0)
  {
    r := a * b;
    if a >= 0.0 && b >= 0.0 { ProductNonNegative(a, b); } else { ProductNonNegative(-a, -b); }
  }

  lemma Square(z: real) returns (y: real)
    ensures y == z * z && y >= 0.0 && (z != 0.0 ==> y > 0.0)
  {
    y := Product(z, z);
  }

  lemma SquareQuotientNonNegative(z: real, n: real)
    requires n > 0.0
    ensures 4.0 * n * n > 0.0 && z * z / (4.0 * n * n) >= 0.0
  {
    var x := Square(z);
    var m := Square(n);
    QuotientNonNegative(x, 4.0 * m);
    assert 4.0 * m == 4.0 * n * n;
  }

  lemma RateBounds(s: real, n: real)
    requires n > 0.0 && 0.0 <= s <= n
    ensures 0.0 <= s / n <= 1.0
  {
    QuotientNonNegative(s, n);
    var q := s / n;
    assert q * n == s;
    if q > 1.0 { ProductNonNegative(q - 1.0, n); }
  }

  lemma HalfQuotient(x: real, n: real)
    requires n > 0.0
    ensures x / (2.0 * n) == x / n / 2.0
  {
    var q := x / n;
    assert x == q * n;
    assert x == (q / 2.0) * (2.0 * n);
  }

  lemma RootTimes(z: real, root: real, p: real, n: real, a: real)
    requires n > 0.0 && a == z * z / n
    requires root * root == p * (1.0 - p) / n + z * z / (4.0 * n * n)
    ensures (z * root) * (z * root) == a * p * (1.0 - p) + a * a / 4.0
  {
    var u, v := p * (1.0 - p) / n, z * z / (4.0 * n * n);
    assert z * z == a * n;
    assert u * n == p * (1.0 - p);
    assert 4.0 * n * v == a by {
      assert v * (4.0 * n * n) == z * z;
      assert (4.0 * n * v) * n == a * n;
    }
    assert (z * root) * (z * root) == (z * z) * (root * root);
    assert (a * n) * (u + v) == a * (u * n) + a * (n * v);
  }

  /** Without the clamps the interval is already the acceptance set, and lies in [0, 1]. */
  lemma UnclampedAccepts(p: real, a: real, t: real, center: real, margin: real, w: real)
    requires 0.0 <= p <= 1.0 && a >= 0.0 && t >= 0.0 && t * t == a * p * (1.0 - p) + a * a / 4.0
    requires center * (1.0 + a) == p + a / 2.0 && margin * (1.0 + a) == t
    ensures center - margin <= w <= center + margin <==> Within(p, w, a * (w * (1.0 - w)))
  {
    var x := w * (1.0 + a) - p - a / 2.0;
    ScoreAlgebra(p, a, t, w);
    AtMostBySquares(x, t);
    ProductSign(1.0 + a, (p - w) * (p - w) - a * (w * (1.0 - w)));
    assert x == (w - center) * (1.0 + a);
    ProductSign(1.0 + a, (w - center) - margin);
    ProductSign(1.0 + a, (center - w) - margin);
    assert ((w - center) - margin) * (1.0 + a) == x - t;
    assert ((center - w) - margin) * (1.0 + a) == -x - t;
  }

  lemma AcceptedIsRate(p: real, a: real, w: real)
    requires 0.0 <= p <= 1.0 && a >= 0.0 && Within(p, w, a * (w * (1.0 - w)))
    ensures 0.0 <= w <= 1.0
  {
    var x := Square(p - w);
    if w < 0.0 {
      var y := NotAccepted(a, w * (1.0 - w), -w, 1.0 - w);
    } else if w > 1.0 {
      var y := NotAccepted(a, w * (1.0 - w), w, w - 1.0);
    }
  }

  lemma NotAccepted(a: real, v: real, x: real, y: real) returns (r: real)
    requires a >= 0.0 && x >= 0.0 && y >= 0.0 && v == -(x * y)
    ensures r == a * v && r <= 0.0
  {
    ProductNonNegative(x, y);
    ProductNonNegative(a, -v);
    r := a * v;
  }

  lemma ScoreVarianceIs(z: real, w: real, n: real, a: real)
    requires n > 0.0 && a == z * z / n
    ensures ScoreVariance(z, w, n) == a * (w * (1.0 - w))
  {
    DivideBack(z * z, n);
    var x, y := z * z, w * (1.0 - w);
    assert x == a * n;
    assert x * y == (a * y) * n;
  }

  /** A rate lies in the interval exactly when the score test accepts it; the clamps change nothing. */
  lemma WilsonIsAcceptanceSet(ar: Arith, s: real, n: real, z: real, w: real)
    requires IsArith(ar) && n > 0.0 && 0.0 <= s <= n && z >= 0.0
    ensures var i := WilsonInterval(ar, s, n, z);
      && i.Some? && 0.0 <= i.value.lower <= i.value.upper <= 1.0
      && (i.value.lower <= w <= i.value.upper <==> Accepted(s, n, z, w))
  {
    hide WilsonInterval, IsArith, Within, ScoreVariance;
    var p, a, t, center, margin := WilsonParts(ar, s, n, z);
    ScoreVarianceIs(z, w, n, a);
    ClampsChangeNothing(p, a, t, center, margin);
    UnclampedAccepts(p, a, t, center, margin, w);
  }

  lemma ClampsChangeNothing(p: real, a: real, t: real, center: real, margin: real)
    requires 0.0 <= p <= 1.0 && a >= 0.0 && t >= 0.0 && t * t == a * p * (1.0 - p) + a * a / 4.0
    requires center * (1.0 + a) == p + a / 2.0 && margin * (1.0 + a) == t && margin >= 0.0
    ensures 0.0 <= center - margin <= center + margin <= 1.0
  {
    UnclampedAccepts(p, a, t, center, margin, center - margin);
    UnclampedAccepts(p, a, t, center, margin, center + margin);
    AcceptedIsRate(p, a, center - margin);
    AcceptedIsRate(p, a, center + margin);
  }

  lemma WilsonContainsRate(ar: Arith, s: real, n: real, z: real)
    requires IsArith(ar) && n > 0.0 && 0.0 <= s <= n && z >= 0.0
    ensures var i := WilsonInterval(ar, s, n, z); i.Some? && i.value.lower <= s / n <= i.value.upper
  {
    hide WilsonInterval, IsArith, ScoreVariance;
    RateBounds(s, n);
    WilsonIsAcceptanceSet(ar, s, n, z, s / n);
    ScoreVarianceNonNegative(z, s / n, n);
  }

  lemma ScoreVarianceNonNegative(z: real, w: real, n: real)
    requires n > 0.0 && 0.0 <= w <= 1.0
    ensures ScoreVariance(z, w, n) >= 0.0
  {
    var x := Square(z);
    var y := Product(w, 1.0 - w);
    var v := Product(x, y);
    QuotientNonNegative(v, n);
  }

  /** For the same rate, more trials give an interval inside the one for fewer. */
  lemma WilsonNests(ar: Arith, s1: real, n1: real, s2: real, n2: real, z: real)
    requires IsArith(ar) && z >= 0.0 && 0.0 < n1 <= n2 && 0.0 <= s1 <= n1 && 0.0 <= s2 <= n2
    requires s1 / n1 == s2 / n2
    ensures var few, many := WilsonInterval(ar, s1, n1, z), WilsonInterval(ar, s2, n2, z);
      few.Some? && many.Some? && few.value.lower <= many.value.lower && many.value.upper <= few.value.upper
  {
    WilsonIsAcceptanceSet(ar, s2, n2, z, 0.0);
    var many := WilsonInterval(ar, s2, n2, z).value;
    AcceptedWithFewer(ar, s1, n1, s2, n2, z, many.lower);
    AcceptedWithFewer(ar, s1, n1, s2, n2, z, many.upper);
  }

  lemma AcceptedWithFewer(ar: Arith, s1: real, n1: real, s2: real, n2: real, z: real, w: real)
    requires IsArith(ar) && z >= 0.0 && 0.0 < n1 <= n2 && 0.0 <= s1 <= n1 && 0.0 <= s2 <= n2
    requires s1 / n1 == s2 / n2 && 0.0 <= w <= 1.0
    requires var many := WilsonInterval(ar, s2, n2, z); many.Some? && many.value.lower <= w <= many.value.upper
    ensures var few := WilsonInterval(ar, s1, n1, z); few.Some? && few.value.lower <= w <= few.value.upper
  {
    hide WilsonInterval, IsArith, ScoreVariance;
    WilsonIsAcceptanceSet(ar, s2, n2, z, w);
    WilsonIsAcceptanceSet(ar, s1, n1, z, w);
    ScoreVarianceFalls(z, w, n1, n2);
  }

  lemma ScoreVarianceFalls(z: real, w: real, n1: real, n2: real)
    requires 0.0 < n1 <= n2 && 0.0 <= w <= 1.0
    ensures ScoreVariance(z, w, n2) <= ScoreVariance(z, w, n1)
  {
    var x := Square(z);
    var y := Product(w, 1.0 - w);
    var v := Product(x, y);
    DivideBack(v, n1);
    DivideBack(v, n2);
    QuotientNonNegative(v, n2);
    SmallerDivisor(v / n1, n1, v / n2, n2);
  }

  lemma SmallerDivisor(q1: real, n1: real, q2: real, n2: real)
    requires 0.0 < n1 <= n2 && 0.0 <= q2 && q1 * n1 == q2 * n2
    ensures q2 <= q1
  {
    var r := Product(q2, n2 - n1);
    if q2 > q1 { var d := Product(q2 - q1, n1); }
  }
}
