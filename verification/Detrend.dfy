// Removing the straight line that fits a pitch contour best.
module Detrend {
  import opened Reals

  // Sums over the first n entries.
  function Dot(x: seq<real>, y: seq<real>, n: nat): real
    requires n <= |x| && n <= |y|
  {
    if n == 0 then 0.0 else Dot(x, y, n - 1) + Mul(x[n - 1], y[n - 1])
  }

  function Total(y: seq<real>, n: nat): real
    requires n <= |y|
  {
    if n == 0 then 0.0 else Total(y, n - 1) + y[n - 1]
  }

  // Indices measured from their mean.
  function Centred(n: nat): (x: seq<real>)
    ensures |x| == n
  {
    seq(n, i => i as real - (n as real - 1.0) / 2.0)
  }

  // What is left of v after taking away the line c + s * x.
  function Residuals(v: seq<real>, x: seq<real>, c: real, s: real): (r: seq<real>)
    requires |v| == |x|
    ensures |r| == |v|
  {
    seq(|v|, i requires 0 <= i < |v| => v[i] - (c + Mul(s, x[i])))
  }

  // The source's least-squares fit: the mean, and the slope about it.
  function MeanOf(v: seq<real>): real
    requires v != []
  {
    Total(v, |v|) / |v| as real
  }

  function SlopeOf(v: seq<real>): real
    requires v != []
  {
    var x := Centred(|v|);
    var denominator := Dot(x, x, |v|);
    var deviations := seq(|v|, i requires 0 <= i < |v| => v[i] - MeanOf(v));
    if denominator != 0.0 then Dot(x, deviations, |v|) / denominator else 0.0
  }

  function LinearDetrend(v: seq<real>): (r: seq<real>)
    ensures |r| == |v|
  {
    if |v| < 2 then seq(|v|, i => 0.0)
    else Residuals(v, Centred(|v|), MeanOf(v), SlopeOf(v))
  }

  // ----- Sums of residuals -------------------------------------------------------------

  lemma {:induction false} DotResiduals(w: seq<real>, v: seq<real>, x: seq<real>, c: real, s: real, n: nat)
    requires |w| == |v| == |x| && n <= |v|
    ensures Dot(w, Residuals(v, x, c, s), n) == Dot(w, v, n) - Mul(c, Total(w, n)) - Mul(s, Dot(w, x, n))
  {
    if n > 0 {
      DotResiduals(w, v, x, c, s, n - 1);
      var a, b := w[n - 1], x[n - 1];
      ResidualTerm(a, v[n - 1], b, c, s);
      MulAdd(c, Total(w, n - 1), a);
      MulAdd(s, Dot(w, x, n - 1), Mul(a, b));
    }
  }

  lemma ResidualTerm(a: real, y: real, b: real, c: real, s: real)
    ensures Mul(a, y - (c + Mul(s, b))) == Mul(a, y) - Mul(c, a) - Mul(s, Mul(a, b))
  {
  }

  lemma {:induction false} TotalResiduals(v: seq<real>, x: seq<real>, c: real, s: real, n: nat)
    requires |v| == |x| && n <= |v|
    ensures Total(Residuals(v, x, c, s), n) == Total(v, n) - Mul(c, n as real) - Mul(s, Total(x, n))
  {
    if n > 0 {
      TotalResiduals(v, x, c, s, n - 1);
      MulAdd(c, (n - 1) as real, 1.0);
      assert Mul(c, 1.0) == c;
      MulAdd(s, Total(x, n - 1), x[n - 1]);
    }
  }

  lemma {:induction false} CentredPrefix(n: nat, k: nat)
    requires k <= n
    ensures Total(Centred(n), k) == Mul(k as real, k as real - n as real) / 2.0
  {
    if k > 0 {
      CentredPrefix(n, k - 1);
      PrefixStep(k as real, n as real);
    }
  }

  lemma PrefixStep(k: real, n: real)
    ensures Mul(k, k - n) / 2.0 == Mul(k - 1.0, (k - 1.0) - n) / 2.0 + ((k - 1.0) - (n - 1.0) / 2.0)
  {
  }

  lemma CentredTotal(n: nat)
    ensures Total(Centred(n), n) == 0.0
  {
    CentredPrefix(n, n);
  }

  lemma {:induction false} DotSelf(x: seq<real>, n: nat, k: nat)
    requires k < n <= |x|
    ensures Dot(x, x, n) >= Sq(x[k])
  {
    SqSign(x[n - 1]);
    if k < n - 1 {
      DotSelf(x, n - 1, k);
    } else {
      DotSelfNonNegative(x, n - 1);
    }
  }

  lemma {:induction false} DotSelfNonNegative(x: seq<real>, n: nat)
    requires n <= |x|
    ensures Dot(x, x, n) >= 0.0
  {
    if n > 0 {
      SqSign(x[n - 1]);
      DotSelfNonNegative(x, n - 1);
    }
  }

  lemma DenominatorPositive(n: nat)
    requires n >= 2
    ensures Dot(Centred(n), Centred(n), n) > 0.0
  {
    var x := Centred(n);
    DotSelf(x, n, 0);
    SqSign(x[0]);
  }

  // The slope times the denominator is the covariance sum.
  lemma SlopeEquation(v: seq<real>)
    requires |v| >= 2
    ensures Mul(SlopeOf(v), Dot(Centred(|v|), Centred(|v|), |v|)) == Dot(Centred(|v|), v, |v|)
  {
    var n, x := |v|, Centred(|v|);
    DenominatorPositive(n);
    var deviations := seq(n, i requires 0 <= i < n => v[i] - MeanOf(v));
    assert Residuals(v, x, MeanOf(v), 0.0) == deviations by {
      assert forall i :: 0 <= i < n ==> Mul(0.0, x[i]) == 0.0;
    }
    DotResiduals(x, v, x, MeanOf(v), 0.0, n);
    CentredTotal(n);
    assert Mul(MeanOf(v), 0.0) == 0.0 && Mul(0.0, Dot(x, x, n)) == 0.0;
  }

  // ----- The theorems ----------------------------------------------------------------------

  lemma {:induction false} ZeroSums(x: seq<real>, r: seq<real>, n: nat)
    requires n <= |x| && n <= |r| && forall i :: 0 <= i < |r| ==> r[i] == 0.0
    ensures Total(r, n) == 0.0 && Dot(x, r, n) == 0.0
  {
    if n > 0 {
      ZeroSums(x, r, n - 1);
    }
  }

  // Residuals are centred and uncorrelated with the position.
  lemma ResidualsOrthogonal(v: seq<real>)
    ensures Total(LinearDetrend(v), |v|) == 0.0
    ensures Dot(Centred(|v|), LinearDetrend(v), |v|) == 0.0
  {
    var n, x := |v|, Centred(|v|);
    if n < 2 {
      ZeroSums(x, LinearDetrend(v), n);
    } else {
      TotalResiduals(v, x, MeanOf(v), SlopeOf(v), n);
      DotResiduals(x, v, x, MeanOf(v), SlopeOf(v), n);
      CentredTotal(n);
      SlopeEquation(v);
      CancelProduct(Total(v, n), n as real);
      assert Mul(SlopeOf(v), 0.0) == 0.0 && Mul(MeanOf(v), 0.0) == 0.0;
    }
  }

  function Indices(n: nat): (x: seq<real>)
    ensures |x| == n
  {
    seq(n, i => i as real)
  }

  lemma {:induction false} DotIndices(n: nat, r: seq<real>, k: nat)
    requires k <= n <= |r|
    ensures Dot(Indices(n), r, k) == Dot(Centred(n), r, k) + Mul((n as real - 1.0) / 2.0, Total(r, k))
  {
    hide Mul;
    var m := (n as real - 1.0) / 2.0;
    if k == 0 {
      MulZero(m);
    } else {
      DotIndices(n, r, k - 1);
      MulSubtract((k - 1) as real, m, r[k - 1]);
      MulAdd(m, Total(r, k - 1), r[k - 1]);
    }
  }

  lemma ResidualsOrthogonalToIndex(v: seq<real>)
    ensures Dot(Indices(|v|), LinearDetrend(v), |v|) == 0.0
  {
    ResidualsOrthogonal(v);
    DotIndices(|v|, LinearDetrend(v), |v|);
    assert Mul((|v| as real - 1.0) / 2.0, 0.0) == 0.0;
  }

  // Squared distance after moving each residual by p + q * x.
  function Shifted(r: seq<real>, x: seq<real>, p: real, q: real): (t: seq<real>)
    requires |r| == |x|
    ensures |t| == |r|
  {
    seq(|r|, i requires 0 <= i < |r| => r[i] + (p + Mul(q, x[i])))
  }

  lemma ExpandSquare(y: real, b: real, p: real, q: real)
    ensures Sq(y + (p + Mul(q, b))) ==
            Sq(y) + 2.0 * Mul(p, y) + 2.0 * Mul(q, Mul(b, y)) + Sq(p + Mul(q, b))
  {
    var u := p + Mul(q, b);
    assert Sq(y + u) == Sq(y) + 2.0 * Mul(y, u) + Sq(u);
    assert Mul(y, u) == Mul(p, y) + Mul(q, Mul(b, y));
  }

  lemma {:induction false} ShiftedSquares(r: seq<real>, x: seq<real>, p: real, q: real, n: nat)
    requires |r| == |x| && n <= |r|
    ensures Dot(Shifted(r, x, p, q), Shifted(r, x, p, q), n) >=
            Dot(r, r, n) + 2.0 * Mul(p, Total(r, n)) + 2.0 * Mul(q, Dot(x, r, n))
  {
    if n > 0 {
      ShiftedSquares(r, x, p, q, n - 1);
      var y, b := r[n - 1], x[n - 1];
      ExpandSquare(y, b, p, q);
      SqSign(p + Mul(q, b));
      MulAdd(p, Total(r, n - 1), y);
      MulAdd(q, Dot(x, r, n - 1), Mul(b, y));
    } else {
      assert Mul(p, 0.0) == 0.0 && Mul(q, 0.0) == 0.0;
    }
  }

  lemma ShiftedSquaresGrow(r: seq<real>, x: seq<real>, p: real, q: real, n: nat, other: seq<real>)
    requires n == |r| == |x| && Total(r, n) == 0.0 && Dot(x, r, n) == 0.0
    requires other == Shifted(r, x, p, q)
    ensures Dot(other, other, n) >= Dot(r, r, n)
  {
    ShiftedSquares(r, x, p, q, n);
    assert Mul(p, 0.0) == 0.0 && Mul(q, 0.0) == 0.0;
  }

  lemma OtherLine(y: real, i: real, x: real, m: real, c: real, s: real, intercept: real, slope: real)
    requires x == i - m
    ensures y - (intercept + Mul(slope, i)) ==
            (y - (c + Mul(s, x))) + ((c - (intercept + Mul(slope, m))) + Mul(s - slope, x))
  {
  }

  // Any other line's residuals are the fitted line's, shifted by a line.
  lemma OtherResiduals(v: seq<real>, c: real, s: real, intercept: real, slope: real, p: real, q: real)
    requires p == c - (intercept + Mul(slope, (|v| as real - 1.0) / 2.0)) && q == s - slope
    ensures Residuals(v, Indices(|v|), intercept, slope) ==
            Shifted(Residuals(v, Centred(|v|), c, s), Centred(|v|), p, q)
  {
    var m, x := (|v| as real - 1.0) / 2.0, Centred(|v|);
    forall i | 0 <= i < |v|
      ensures Residuals(v, Indices(|v|), intercept, slope)[i] == Shifted(Residuals(v, x, c, s), x, p, q)[i]
    {
      OtherLine(v[i], i as real, x[i], m, c, s, intercept, slope);
    }
  }

  lemma LeastSquaresFrom(v: seq<real>, c: real, s: real, intercept: real, slope: real)
    requires Total(Residuals(v, Centred(|v|), c, s), |v|) == 0.0
    requires Dot(Centred(|v|), Residuals(v, Centred(|v|), c, s), |v|) == 0.0
    ensures var r, other := Residuals(v, Centred(|v|), c, s), Residuals(v, Indices(|v|), intercept, slope);
            Dot(r, r, |v|) <= Dot(other, other, |v|)
  {
    var p, q := c - (intercept + Mul(slope, (|v| as real - 1.0) / 2.0)), s - slope;
    OtherResiduals(v, c, s, intercept, slope, p, q);
    ShiftedSquaresGrow(Residuals(v, Centred(|v|), c, s), Centred(|v|), p, q, |v|,
                       Residuals(v, Indices(|v|), intercept, slope));
  }

  // No line leaves a smaller sum of squares.  Lines are given by intercept and slope
  // over the plain index.
  lemma DetrendIsLeastSquares(v: seq<real>, intercept: real, slope: real)
    ensures var r, other := LinearDetrend(v), Residuals(v, Indices(|v|), intercept, slope);
            Dot(r, r, |v|) <= Dot(other, other, |v|)
  {
    if |v| < 2 {
      ZeroSums(LinearDetrend(v), LinearDetrend(v), |v|);
      DotSelfNonNegative(Residuals(v, Indices(|v|), intercept, slope), |v|);
    } else {
      ResidualsOrthogonal(v);
      LeastSquaresFrom(v, MeanOf(v), SlopeOf(v), intercept, slope);
    }
  }

  // Adding any line to the contour changes nothing.
  function AddLine(v: seq<real>, intercept: real, slope: real): (w: seq<real>)
    ensures |w| == |v|
  {
    seq(|v|, i requires 0 <= i < |v| => v[i] + (intercept + Mul(slope, i as real)))
  }

  // A line is one about the mean index.
  lemma AddedLine(v: seq<real>, intercept: real, slope: real, c: real)
    requires c == intercept + Mul(slope, (|v| as real - 1.0) / 2.0)
    ensures AddLine(v, intercept, slope) == Residuals(v, Centred(|v|), -c, -slope)
  {
    hide Mul;
    var m, x := (|v| as real - 1.0) / 2.0, Centred(|v|);
    forall i | 0 <= i < |v|
      ensures AddLine(v, intercept, slope)[i] == Residuals(v, x, -c, -slope)[i]
    {
      MulAdd(slope, m, x[i]);
      MulNegate(slope, x[i]);
    }
  }

  lemma SameResiduals(v: seq<real>, x: seq<real>, c: real, slope: real, mean: real, s: real)
    requires |v| == |x|
    ensures Residuals(Residuals(v, x, -c, -slope), x, mean + c, s + slope) == Residuals(v, x, mean, s)
  {
    hide Mul;
    var w := Residuals(v, x, -c, -slope);
    forall i | 0 <= i < |v|
      ensures Residuals(w, x, mean + c, s + slope)[i] == Residuals(v, x, mean, s)[i]
    {
      MulPlus(s, slope, x[i]);
      MulNegate(slope, x[i]);
    }
  }

  lemma DetrendIgnoresLines(v: seq<real>, intercept: real, slope: real)
    ensures LinearDetrend(AddLine(v, intercept, slope)) == LinearDetrend(v)
  {
    if |v| >= 2 {
      hide AddLine, Residuals, MeanOf, SlopeOf, Mul;
      var c := intercept + Mul(slope, (|v| as real - 1.0) / 2.0);
      AddedLine(v, intercept, slope, c);
      MeanMoves(v, c, slope);
      SlopeMoves(v, c, slope);
      SameResiduals(v, Centred(|v|), c, slope, MeanOf(v), SlopeOf(v));
    }
  }

  lemma MeanMoves(v: seq<real>, c: real, slope: real)
    requires |v| >= 2
    ensures MeanOf(Residuals(v, Centred(|v|), -c, -slope)) == MeanOf(v) + c
  {
    var n, x := |v|, Centred(|v|);
    TotalResiduals(v, x, -c, -slope, n);
    CentredTotal(n);
    assert Mul(-slope, 0.0) == 0.0;
    assert Mul(-c, n as real) == -Mul(c, n as real);
    CancelProduct(c, n as real);
    DivideSum(Total(v, n), Mul(c, n as real), n as real);
  }

  lemma SlopeMoves(v: seq<real>, c: real, slope: real)
    requires |v| >= 2
    ensures SlopeOf(Residuals(v, Centred(|v|), -c, -slope)) == SlopeOf(v) + slope
  {
    var n, x := |v|, Centred(|v|);
    var w := Residuals(v, x, -c, -slope);
    DenominatorPositive(n);
    SlopeEquation(v);
    SlopeEquation(w);
    DotResiduals(x, v, x, -c, -slope, n);
    CentredTotal(n);
    SlopeFromEquations(SlopeOf(w), SlopeOf(v), c, slope, Dot(x, x, n));
  }

  lemma SlopeFromEquations(after: real, before: real, c: real, slope: real, d: real)
    requires d > 0.0
    requires Mul(after, d) == Mul(before, d) - Mul(-c, 0.0) - Mul(-slope, d)
    ensures after == before + slope
  {
    assert Mul(before + slope, d) == Mul(before, d) - Mul(-slope, d);
    CancelFactor(after, before + slope, d);
  }
}
