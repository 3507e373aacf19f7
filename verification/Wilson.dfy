// The Wilson score interval around an observed proportion, over the reals.  The
// square root is a parameter that is only assumed to be one.
module Wilson {
  import opened Reals

  datatype Interval = Interval(low: real, high: real)

  datatype Outcome = Bounds(value: Interval) | BadCounts | BadQuantile

  ghost predicate IsSquareRoot(sqrt: real -> real) {
    forall x: real :: x >= 0.0 ==> sqrt(x) >= 0.0 && Sq(sqrt(x)) == x
  }

  function Center(p: real, n: real, z: real): real
    requires n > 0.0
  {
    DenominatorPositive(n, z);
    (p + Sq(z) / (2.0 * n)) / (1.0 + Sq(z) / n)
  }

  function Margin(p: real, n: real, z: real, sqrt: real -> real): real
    requires n > 0.0
  {
    DenominatorPositive(n, z);
    Mul(z, sqrt((Mul(p, 1.0 - p) + Sq(z) / (4.0 * n)) / n)) / (1.0 + Sq(z) / n)
  }

  lemma DenominatorPositive(n: real, z: real)
    requires n > 0.0
    ensures Sq(z) / n >= 0.0
    ensures z > 0.0 ==> Sq(z) / n > 0.0
  {
    SqSign(z);
    DivideSign(Sq(z), n);
  }

  function WilsonInterval(successes: int, total: int, z: real, sqrt: real -> real): (r: Outcome)
    ensures r.BadCounts? <==> !(0 <= successes <= total)
    ensures r.BadQuantile? <==> 0 <= successes <= total && z <= 0.0
  {
    if successes < 0 || total < 0 || successes > total then BadCounts
    else if z <= 0.0 then BadQuantile
    else if total == 0 then Bounds(Interval(0.0, 1.0))
    else
      var n := total as real;
      var p := successes as real / n;
      var center, margin := Center(p, n, z), Margin(p, n, z, sqrt);
      Bounds(Interval(Max(0.0, center - margin), Min(1.0, center + margin)))
  }

  // The three identities behind the bounds, with w = z * z / n and the radicand
  // w * p * q + w * w / 4 left after multiplying through by 1 + w.
  lemma SquareOfDeviation(p: real, q: real, w: real)
    requires q == 1.0 - p
    ensures Mul(w, Mul(p, q)) + Sq(w) / 4.0 - Sq(w / 2.0 - Mul(w, p)) == Mul(w, Mul(p, q)) + Mul(Sq(w), Mul(p, q))
  {
  }

  lemma SquareOfCenter(p: real, q: real, w: real)
    requires q == 1.0 - p
    ensures Sq(p + w / 2.0) - (Mul(w, Mul(p, q)) + Sq(w) / 4.0) == Sq(p) + Mul(w, Sq(p))
  {
  }

  // The radicand exceeds the square of the centre's distance from p.
  lemma NearCenter(p: real, q: real, w: real, root: real)
    requires 0.0 <= p && 0.0 <= q && q == 1.0 - p && w > 0.0 && root >= 0.0
    requires Sq(root) == Mul(w, Mul(p, q)) + Sq(w) / 4.0
    ensures -root <= w / 2.0 - Mul(w, p) <= root
  {
    MulSign(p, q);
    MulSign(w, Mul(p, q));
    SqSign(w);
    MulSign(Sq(w), Mul(p, q));
    SquareOfDeviation(p, q, w);
    SquareOrder(w / 2.0 - Mul(w, p), root);
  }

  // And does not exceed the square of the centre itself.
  lemma BelowCenter(p: real, q: real, w: real, root: real)
    requires 0.0 <= p && q == 1.0 - p && w > 0.0 && root >= 0.0
    requires Sq(root) == Mul(w, Mul(p, q)) + Sq(w) / 4.0
    ensures root <= p + w / 2.0
  {
    SqSign(p);
    MulSign(w, Sq(p));
    SquareOfCenter(p, q, w);
    SquareOrder(root, p + w / 2.0);
  }

  // Everything multiplied through by the denominator 1 + w.
  lemma Scaled(p: real, w: real, root: real)
    requires 0.0 <= p <= 1.0 && w > 0.0 && root >= 0.0
    requires Sq(root) == Mul(w, Mul(p, 1.0 - p)) + Sq(w) / 4.0
    ensures 0.0 <= p + w / 2.0 - root <= Mul(p, 1.0 + w) <= p + w / 2.0 + root <= 1.0 + w
  {
    NearCenter(p, 1.0 - p, w, root);
    BelowCenter(p, 1.0 - p, w, root);
    MulCommutes(p, 1.0 - p);
    BelowCenter(1.0 - p, p, w, root);
    assert Mul(p, 1.0 + w) == p + Mul(w, p);
  }

  lemma Unscaled(p: real, c: real, root: real, d: real)
    requires d > 0.0 && 0.0 <= c - root <= Mul(p, d) <= c + root <= d
    ensures 0.0 <= c / d - root / d <= p <= c / d + root / d <= 1.0
  {
    assert (c - root) / d == c / d - root / d;
    assert (c + root) / d == c / d + root / d;
    DivideSign(c - root, d);
    DivideCompare(c - root, p, d);
    DivideCompare(c + root, p, d);
    DivideCompare(c + root, 1.0, d);
    assert Mul(1.0, d) == d;
  }

  lemma RootSquared(p: real, n: real, z: real, s: real)
    requires n > 0.0
    requires Sq(s) == (Mul(p, 1.0 - p) + Sq(z) / (4.0 * n)) / n
    ensures var w := Sq(z) / n;
            Sq(Mul(z, s)) == Mul(w, Mul(p, 1.0 - p)) + Sq(w) / 4.0
  {
    var w := Sq(z) / n;
    var u := Mul(p, 1.0 - p) + w / 4.0;
    QuarterRatio(Sq(z), n);
    assert Sq(Mul(z, s)) == Mul(Sq(z), Sq(s));
    assert Sq(z) == Mul(w, n);
    assert Sq(s) == u / n;
    CancelDenominator(w, n, u);
    assert Mul(w, u) == Mul(w, Mul(p, 1.0 - p)) + Sq(w) / 4.0;
  }

  lemma CancelDenominator(w: real, n: real, u: real)
    requires n > 0.0
    ensures Mul(Mul(w, n), u / n) == Mul(w, u)
  {
    var t := u / n;
    assert Mul(n, t) == u;
    assert Mul(Mul(w, n), t) == Mul(w, Mul(n, t));
  }

  lemma QuarterRatio(a: real, n: real)
    requires n > 0.0
    ensures a / (4.0 * n) == (a / n) / 4.0
    ensures a / (2.0 * n) == (a / n) / 2.0
  {
    var x, y, w := a / (4.0 * n), a / (2.0 * n), a / n;
    assert x * (4.0 * n) == a && y * (2.0 * n) == a && w * n == a;
    assert (4.0 * x - w) * n == 0.0;
    assert (2.0 * y - w) * n == 0.0;
  }

  // The interval contains the observed proportion, and neither clamp ever acts:
  // the unclamped ends already lie in the unit interval.
  lemma IntervalContainsProportion(successes: int, total: int, z: real, sqrt: real -> real)
    requires 0 <= successes <= total && total > 0 && z > 0.0 && IsSquareRoot(sqrt)
    ensures var n := total as real;
            var p := successes as real / n;
            var center, margin := Center(p, n, z), Margin(p, n, z, sqrt);
            && WilsonInterval(successes, total, z, sqrt) == Bounds(Interval(center - margin, center + margin))
            && 0.0 <= center - margin <= p <= center + margin <= 1.0
  {
    var n := total as real;
    var p := successes as real / n;
    UnitRatio(successes as real, n);
    CenterMargin(p, n, z, sqrt);
  }

  lemma CenterMargin(p: real, n: real, z: real, sqrt: real -> real)
    requires 0.0 <= p <= 1.0 && n > 0.0 && z > 0.0 && IsSquareRoot(sqrt)
    ensures var center, margin := Center(p, n, z), Margin(p, n, z, sqrt);
            0.0 <= center - margin <= p <= center + margin <= 1.0
  {
    DenominatorPositive(n, z);
    var w := Sq(z) / n;
    QuarterRatio(Sq(z), n);
    MulSign(p, 1.0 - p);
    var u := Mul(p, 1.0 - p) + w / 4.0;
    DivideSign(u, n);
    var s := sqrt(u / n);
    MulSign(z, s);
    RootSquared(p, n, z, s);
    Scaled(p, w, Mul(z, s));
    Unscaled(p, p + w / 2.0, Mul(z, s), 1.0 + w);
  }
}
