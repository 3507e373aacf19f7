// Bytes, and the numbers they stand for.
module Bytes {

  type Byte = bv8

  function Cast(n: nat): (b: Byte)
    requires n < 256
  {
    n as bv8
  }

  function Low(n: nat): (b: Byte) {
    Cast(n % 256)
  }

  function Value(b: Byte): (n: nat)
    ensures n < 256
  {
    b as int
  }

  // Byte strings put together.
  function Flatten(parts: seq<seq<Byte>>): seq<Byte> {
    if parts == [] then [] else parts[0] + Flatten(parts[1..])
  }

  lemma CastBack(b: Byte)
    ensures Cast(Value(b)) == b
  {
  }

  lemma ZeroValue()
    ensures Value(0) == 0
  {
  }

  lemma NextValue(b: Byte)
    requires b != 255
    ensures Value(b + 1) == Value(b) + 1
  {
  }

  lemma LastValue()
    ensures Value(255) == 255
  {
  }

  // Every number below 256 is the value of some byte.
  lemma {:induction false} Reached(n: nat) returns (b: Byte)
    requires n < 256
    ensures Value(b) == n
  {
    hide Value;
    if n == 0 {
      b := 0;
      ZeroValue();
    } else {
      var before := Reached(n - 1);
      LastValue();
      NextValue(before);
      b := before + 1;
    }
  }

  lemma CastValue(n: nat)
    requires n < 256
    ensures Value(Cast(n)) == n
  {
    hide Cast, Value;
    var b := Reached(n);
    CastBack(b);
  }

  lemma LowValue(n: nat)
    ensures Value(Low(n)) == n % 256
  {
    hide Cast, Value;
    CastValue(n % 256);
  }

  lemma ValueLow(b: Byte)
    ensures Low(Value(b)) == b
  {
    hide Cast, Value;
    CastBack(b);
  }

  lemma ValueInjective(a: Byte, b: Byte)
    ensures Value(a) == Value(b) ==> a == b
  {
    hide Cast, Value;
    CastBack(a);
    CastBack(b);
  }
}
