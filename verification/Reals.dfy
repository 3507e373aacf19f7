// Small facts about real arithmetic used by the scoring proofs.  Products that are
// compared are named with `Mul`, so that the solver treats them as terms.
module Reals {

  function Abs(x: real): real { if x >= 0.0 then x else -x }

  function Min(a: real, b: real): real { if a <= b then a else b }

  function Max(a: real, b: real): real { if a >= b then a else b }

  function Mul(a: real, b: real): real { a * b }

  function Sq(a: real): real { Mul(a, a) }

  lemma MulSign(a: real, b: real)
    requires a >= 0.0 && b >= 0.0
    ensures Mul(a, b) >= 0.0
    ensures a > 0.0 && b > 0.0 ==> Mul(a, b) > 0.0
  {
  }

  lemma MulCommutes(a: real, b: real)
    ensures Mul(a, b) == Mul(b, a)
  {
  }

  lemma MulSubtract(a: real, b: real, c: real)
    ensures Mul(a - b, c) == Mul(a, c) - Mul(b, c)
  {
  }

  lemma MulNegate(a: real, b: real)
    ensures Mul(-a, b) == -Mul(a, b)
  {
  }

  lemma MulPlus(a: real, b: real, c: real)
    ensures Mul(a + b, c) == Mul(a, c) + Mul(b, c)
  {
  }

  lemma MulAdd(a: real, b: real, c: real)
    ensures Mul(a, b + c) == Mul(a, b) + Mul(a, c)
  {
  }

  lemma MulZero(a: real)
    ensures Mul(a, 0.0) == 0.0 && Mul(0.0, a) == 0.0
  {
  }

  lemma CancelProduct(c: real, n: real)
    requires n != 0.0
    ensures Mul(c, n) / n == c
    ensures Mul(c / n, n) == c
  {
    var x := Mul(c, n) / n;
    assert (x - c) * n == 0.0;
  }

  lemma DivideSum(a: real, b: real, n: real)
    requires n != 0.0
    ensures (a + b) / n == a / n + b / n
  {
  }

  lemma SqNegate(a: real)
    ensures Sq(-a) == Sq(a)
  {
  }

  lemma SqSign(a: real)
    ensures Sq(a) >= 0.0
    ensures a != 0.0 ==> Sq(a) > 0.0
  {
    if a >= 0.0 {
      MulSign(a, a);
    } else {
      MulSign(-a, -a);
      SqNegate(a);
    }
  }

  lemma ScaleOrder(a: real, b: real, c: real)
    requires c >= 0.0
    ensures a <= b ==> Mul(a, c) <= Mul(b, c)
    ensures a < b && c > 0.0 ==> Mul(a, c) < Mul(b, c)
  {
    if a <= b {
      MulSign(b - a, c);
      MulSubtract(b, a, c);
    }
  }

  lemma ScaleIff(x: real, y: real, d: real)
    requires d > 0.0
    ensures x <= y <==> Mul(x, d) <= Mul(y, d)
    ensures x < y <==> Mul(x, d) < Mul(y, d)
  {
    ScaleOrder(x, y, d);
    ScaleOrder(y, x, d);
  }

  lemma CancelFactor(x: real, y: real, d: real)
    requires d > 0.0 && Mul(x, d) == Mul(y, d)
    ensures x == y
  {
    ScaleIff(x, y, d);
    ScaleIff(y, x, d);
  }

  // a / d compares with q as a does with q * d.
  lemma DivideCompare(a: real, q: real, d: real)
    requires d > 0.0
    ensures a / d <= q <==> a <= Mul(q, d)
    ensures a / d >= q <==> a >= Mul(q, d)
    ensures a / d > q <==> a > Mul(q, d)
  {
    var x := a / d;
    assert Mul(x, d) == a;
    ScaleIff(x, q, d);
    ScaleIff(q, x, d);
  }

  lemma DivideSign(a: real, d: real)
    requires d > 0.0
    ensures a >= 0.0 <==> a / d >= 0.0
    ensures a > 0.0 <==> a / d > 0.0
  {
    DivideCompare(a, 0.0, d);
    assert Mul(0.0, d) == 0.0;
  }

  lemma UnitRatio(n: real, d: real)
    requires 0.0 <= n <= d && d > 0.0
    ensures 0.0 <= n / d <= 1.0
    ensures n > 0.0 ==> n / d > 0.0
  {
    DivideSign(n, d);
    DivideCompare(n, 1.0, d);
    assert Mul(1.0, d) == d;
  }

  lemma SquareGrows(b: real, a: real)
    requires 0.0 <= b < a
    ensures Sq(b) < Sq(a)
  {
    ScaleOrder(b, a, b);
    MulCommutes(a, b);
    ScaleOrder(b, a, a);
  }

  lemma SquareOrder(a: real, b: real)
    requires b >= 0.0 && Sq(a) <= Sq(b)
    ensures -b <= a <= b
  {
    if a > b {
      SquareGrows(b, a);
    } else if -a > b {
      SqNegate(a);
      SquareGrows(b, -a);
    }
  }
}
