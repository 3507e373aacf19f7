// The order statistics and roundings the scorer is built from.
module Stats {
  import opened Reals

  // ----- Rounding -----------------------------------------------------------------

  // Python's round: to the nearest integer, ties to the even one.
  function Round(x: real): (r: int)
    ensures x - 0.5 <= r as real <= x + 0.5
  {
    var low := x.Floor;
    var rest := x - low as real;
    if rest < 0.5 || (rest == 0.5 && low % 2 == 0) then low else low + 1
  }

  lemma RoundMonotone(x: real, y: real)
    requires x <= y
    ensures Round(x) <= Round(y)
  {
  }

  function Ceil(x: real): (r: int)
    ensures r as real - 1.0 < x <= r as real
  {
    -((-x).Floor)
  }

  // Six decimal places.
  function Quantize(x: real): real {
    Round(x * 1000000.0) as real / 1000000.0
  }

  lemma QuantizeMonotone(x: real, y: real)
    requires x <= y
    ensures Quantize(x) <= Quantize(y)
  {
    RoundMonotone(x * 1000000.0, y * 1000000.0);
  }

  lemma QuantizeUnit(x: real)
    ensures 0.0 <= x ==> 0.0 <= Quantize(x)
    ensures x <= 1.0 ==> Quantize(x) <= 1.0
  {
    assert Quantize(0.0) == 0.0 && Quantize(1.0) == 1.0;
    if 0.0 <= x {
      QuantizeMonotone(0.0, x);
    }
    if x <= 1.0 {
      QuantizeMonotone(x, 1.0);
    }
  }

  // ----- Sorting -------------------------------------------------------------------

  ghost predicate Sorted(s: seq<real>) {
    forall i, j :: 0 <= i <= j < |s| ==> s[i] <= s[j]
  }

  function Insert(x: real, s: seq<real>): (r: seq<real>)
    requires Sorted(s)
    ensures Sorted(r) && |r| == |s| + 1
    ensures forall y :: y in r <==> y in s || y == x
  {
    if s == [] || x <= s[0] then [x] + s
    else
      var rest := Insert(x, s[1..]);
      assert s == [s[0]] + s[1..];
      assert forall y :: y in s[1..] ==> s[0] <= y;
      assert forall i :: 0 <= i < |rest| ==> rest[i] in rest;
      [s[0]] + rest
  }

  function Sort(s: seq<real>): (r: seq<real>)
    ensures Sorted(r) && |r| == |s|
    ensures forall y :: y in r <==> y in s
  {
    if s == [] then []
    else
      assert s == [s[0]] + s[1..];
      Insert(s[0], Sort(s[1..]))
  }

  lemma {:induction false} InsertAdds(x: real, s: seq<real>)
    requires Sorted(s)
    ensures multiset(Insert(x, s)) == multiset(s) + multiset{x}
  {
    if s != [] && x > s[0] {
      InsertAdds(x, s[1..]);
      assert s == [s[0]] + s[1..];
    }
  }

  lemma {:induction false} SortPermutes(s: seq<real>)
    ensures multiset(Sort(s)) == multiset(s)
  {
    if s != [] {
      SortPermutes(s[1..]);
      InsertAdds(s[0], Sort(s[1..]));
      assert s == [s[0]] + s[1..];
    }
  }

  // ----- Median and percentile -------------------------------------------------------

  ghost predicate Within(s: seq<real>, lo: real, hi: real) {
    forall i :: 0 <= i < |s| ==> lo <= s[i] <= hi
  }

  lemma SortWithin(s: seq<real>, lo: real, hi: real)
    requires Within(s, lo, hi)
    ensures Within(Sort(s), lo, hi)
  {
    var r := Sort(s);
    forall i | 0 <= i < |r|
      ensures lo <= r[i] <= hi
    {
      assert r[i] in r;
      assert r[i] in s;
    }
  }

  function Median(s: seq<real>): (m: real)
    requires s != []
  {
    var r := Sort(s);
    if |r| % 2 == 1 then r[|r| / 2] else (r[|r| / 2 - 1] + r[|r| / 2]) / 2.0
  }

  // A median is bounded by whatever bounds the values.
  lemma MedianWithin(s: seq<real>, lo: real, hi: real)
    requires s != [] && Within(s, lo, hi)
    ensures lo <= Median(s) <= hi
  {
    SortWithin(s, lo, hi);
  }

  // Linear interpolation between the two neighbouring ranks.
  function Interpolate(ordered: seq<real>, position: real): real
    requires ordered != [] && 0.0 <= position <= (|ordered| - 1) as real
  {
    var lower, upper := position.Floor, Ceil(position);
    if lower == upper then ordered[lower]
    else
      var weight := position - lower as real;
      Mul(ordered[lower], 1.0 - weight) + Mul(ordered[upper], weight)
  }

  function Percentile(s: seq<real>, percentile: real): real
    requires s != [] && 0.0 <= percentile <= 1.0
  {
    var ordered := Sort(s);
    PositionInRange(|ordered|, percentile);
    Interpolate(ordered, Mul((|ordered| - 1) as real, percentile))
  }

  lemma PositionInRange(n: nat, p: real)
    requires n > 0 && 0.0 <= p <= 1.0
    ensures 0.0 <= Mul((n - 1) as real, p) <= (n - 1) as real
  {
    MulSign((n - 1) as real, p);
    MulSign((n - 1) as real, 1.0 - p);
  }

  // Between two ranks the interpolated value lies between their values, and grows
  // with the position.
  lemma BetweenNeighbours(a: real, b: real, weight: real, weight': real)
    requires a <= b && 0.0 <= weight <= weight' <= 1.0
    ensures a <= Mul(a, 1.0 - weight) + Mul(b, weight) <= Mul(a, 1.0 - weight') + Mul(b, weight') <= b
  {
    MulSign(b - a, weight);
    MulSign(b - a, weight' - weight);
    MulSign(b - a, 1.0 - weight');
    Blend(a, b, weight);
    Blend(a, b, weight');
    assert Mul(b - a, weight' - weight) == Mul(b - a, weight') - Mul(b - a, weight);
    assert Mul(b - a, 1.0 - weight') == (b - a) - Mul(b - a, weight');
  }

  lemma Blend(a: real, b: real, weight: real)
    ensures Mul(a, 1.0 - weight) + Mul(b, weight) == a + Mul(b - a, weight)
  {
  }

  lemma InterpolateMonotone(ordered: seq<real>, p: real, q: real)
    requires ordered != [] && Sorted(ordered) && 0.0 <= p <= q <= (|ordered| - 1) as real
    ensures Interpolate(ordered, p) <= Interpolate(ordered, q)
    ensures ordered[p.Floor] <= Interpolate(ordered, p) <= ordered[Ceil(p)]
  {
    var lowP, lowQ := p.Floor, q.Floor;
    var highP, highQ := Ceil(p), Ceil(q);
    assert lowP <= lowQ;
    BetweenNeighbours(ordered[lowP], ordered[highP], p - lowP as real, p - lowP as real);
    BetweenNeighbours(ordered[lowQ], ordered[highQ], q - lowQ as real, q - lowQ as real);
    if lowP == lowQ {
      if lowP < highP {
        assert highQ == highP;
        BetweenNeighbours(ordered[lowP], ordered[highP], p - lowP as real, q - lowQ as real);
      }
    } else {
      assert highP <= lowQ;
    }
  }

  // A percentile grows with its rank and stays within the values' own bounds.
  lemma PercentileMonotone(s: seq<real>, p: real, q: real)
    requires s != [] && 0.0 <= p <= q <= 1.0
    ensures Percentile(s, p) <= Percentile(s, q)
  {
    var n := (|s| - 1) as real;
    PositionInRange(|s|, p);
    PositionInRange(|s|, q);
    ScaleOrder(p, q, n);
    MulCommutes(p, n);
    MulCommutes(q, n);
    InterpolateMonotone(Sort(s), Mul(n, p), Mul(n, q));
  }

  lemma PercentileWithin(s: seq<real>, p: real, lo: real, hi: real)
    requires s != [] && 0.0 <= p <= 1.0 && Within(s, lo, hi)
    ensures lo <= Percentile(s, p) <= hi
  {
    SortWithin(s, lo, hi);
    var n := (|s| - 1) as real;
    PositionInRange(|s|, p);
    InterpolateMonotone(Sort(s), Mul(n, p), Mul(n, p));
  }

  // The 0 and 1 percentiles are the extremes themselves.
  lemma PercentileExtremes(s: seq<real>)
    requires s != []
    ensures Percentile(s, 0.0) in s && Percentile(s, 1.0) in s
    ensures Within(s, Percentile(s, 0.0), Percentile(s, 1.0))
  {
    var ordered := Sort(s);
    assert Mul((|s| - 1) as real, 0.0) == 0.0 && Mul((|s| - 1) as real, 1.0) == (|s| - 1) as real;
    assert ordered[0] in ordered && ordered[|s| - 1] in ordered;
    forall i | 0 <= i < |s|
      ensures ordered[0] <= s[i] <= ordered[|s| - 1]
    {
      assert s[i] in ordered;
    }
  }
}
