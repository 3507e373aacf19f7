// The page checksum: bit-by-bit division by 0x04c11db7, most significant bit first,
// from a zero register and without a final inversion.
module OggCrc {
  import opened Bytes

  const POLYNOMIAL: bv32 := 0x04c1_1db7

  // Kept apart from their bits, so that most of what follows is algebra.
  function Xor(x: bv32, y: bv32): bv32 {
    x ^ y
  }

  function Double(x: bv32): bv32 {
    x << 1
  }

  predicate Top(x: bv32) {
    x & 0x8000_0000 != 0
  }

  // One bit.
  function Shift(crc: bv32): bv32 {
    if Top(crc) then Xor(Double(crc), POLYNOMIAL) else Double(crc)
  }

  function Shifts(crc: bv32, n: nat): bv32 {
    if n == 0 then crc else Shift(Shifts(crc, n - 1))
  }

  function Feed(crc: bv32, b: Byte): bv32 {
    Shifts(Xor(crc, (b as bv32) << 24), 8)
  }

  function Register(crc: bv32, bytes: seq<Byte>): bv32
    decreases |bytes|
  {
    if bytes == [] then crc else Register(Feed(crc, bytes[0]), bytes[1..])
  }

  function Checksum(bytes: seq<Byte>): (c: bv32) {
    Register(0, bytes)
  }

  method ComputeChecksum(page: seq<Byte>) returns (crc: bv32)
    ensures crc == Checksum(page)
  {
    hide Shift, Feed;
    crc := 0;
    for i := 0 to |page|
      invariant Register(crc, page[i..]) == Checksum(page)
    {
      ghost var before := crc;
      crc := crc ^ ((page[i] as bv32) << 24);
      ghost var mixed := crc;
      for bit := 0 to 8
        invariant crc == Shifts(mixed, bit)
      {
        crc := ShiftBit(crc);
      }
      FeedIs(before, page[i]);
      assert page[i..][1..] == page[i + 1..];
    }
  }

  method ShiftBit(crc: bv32) returns (next: bv32)
    ensures next == Shift(crc)
  {
    if crc & 0x8000_0000 != 0 {
      next := (crc << 1) ^ POLYNOMIAL;
    } else {
      next := crc << 1;
    }
  }

  lemma FeedIs(crc: bv32, b: Byte)
    ensures Feed(crc, b) == Shifts(Xor(crc, (b as bv32) << 24), 8)
  {
  }

  // ----- Every step is one-to-one ------------------------------------------------

  lemma XorInjective(x: bv32, y: bv32, z: bv32)
    ensures Xor(x, z) == Xor(y, z) ==> x == y
  {
  }

  lemma DoubleInjective(x: bv32, y: bv32)
    requires Top(x) == Top(y)
    ensures Double(x) == Double(y) ==> x == y
  {
  }

  // The polynomial is odd, so the bit shifted out can be read off the result.
  lemma OddOut(x: bv32)
    ensures Xor(Double(x), POLYNOMIAL) & 1 == 1
  {
  }

  lemma EvenOut(x: bv32)
    ensures Double(x) & 1 == 0
  {
  }

  lemma ShiftInjective(x: bv32, y: bv32)
    ensures Shift(x) == Shift(y) ==> x == y
  {
    hide Top, Xor, Double;
    if Shift(x) == Shift(y) {
      OddOut(x);
      OddOut(y);
      EvenOut(x);
      EvenOut(y);
      assert Top(x) == Top(y);
      XorInjective(Double(x), Double(y), POLYNOMIAL);
      DoubleInjective(x, y);
    }
  }

  lemma {:induction false} ShiftsInjective(x: bv32, y: bv32, n: nat)
    ensures Shifts(x, n) == Shifts(y, n) ==> x == y
  {
    hide Shift;
    if n > 0 {
      ShiftInjective(Shifts(x, n - 1), Shifts(y, n - 1));
      ShiftsInjective(x, y, n - 1);
    }
  }

  lemma FeedInjective(x: bv32, y: bv32, b: Byte)
    ensures Feed(x, b) == Feed(y, b) ==> x == y
  {
    hide Shifts;
    ShiftsInjective(Xor(x, (b as bv32) << 24), Xor(y, (b as bv32) << 24), 8);
    XorInjective(x, y, (b as bv32) << 24);
  }

  // Feeding the same bytes never makes two registers meet.
  lemma {:induction false} RegisterInjective(x: bv32, y: bv32, bytes: seq<Byte>)
    ensures Register(x, bytes) == Register(y, bytes) ==> x == y
    decreases |bytes|
  {
    hide Feed;
    if bytes != [] {
      RegisterInjective(Feed(x, bytes[0]), Feed(y, bytes[0]), bytes[1..]);
      FeedInjective(x, y, bytes[0]);
    }
  }

  lemma {:induction false} RegisterAppend(crc: bv32, a: seq<Byte>, b: seq<Byte>)
    ensures Register(crc, a + b) == Register(Register(crc, a), b)
    decreases |a|
  {
    hide Feed;
    if a == [] {
      assert a + b == b;
    } else {
      assert (a + b)[0] == a[0] && (a + b)[1..] == a[1..] + b;
      RegisterAppend(Feed(crc, a[0]), a[1..], b);
    }
  }

  // ----- Bursts ----------------------------------------------------------------------

  lemma XorAssoc(x: bv32, y: bv32, z: bv32)
    ensures Xor(Xor(x, y), z) == Xor(x, Xor(y, z))
  {
  }

  lemma XorDouble(x: bv32, y: bv32)
    ensures Double(Xor(x, y)) == Xor(Double(x), Double(y))
  {
  }

  lemma XorTop(x: bv32, y: bv32)
    ensures Top(Xor(x, y)) <==> Top(x) != Top(y)
  {
  }

  lemma XorComm(x: bv32, y: bv32)
    ensures Xor(x, y) == Xor(y, x)
  {
  }

  lemma XorSelf(x: bv32, z: bv32)
    ensures Xor(Xor(x, z), z) == x
  {
  }

  lemma XorBoth(x: bv32, y: bv32, z: bv32)
    ensures Xor(Xor(x, z), Xor(y, z)) == Xor(x, y)
  {
    hide Xor;
    XorAssoc(x, z, Xor(y, z));
    XorComm(z, Xor(y, z));
    XorSelf(y, z);
  }

  lemma XorLeft(x: bv32, y: bv32, z: bv32)
    ensures Xor(Xor(x, z), y) == Xor(Xor(x, y), z)
  {
    hide Xor;
    XorAssoc(x, z, y);
    XorComm(z, y);
    XorAssoc(x, y, z);
  }

  lemma ShiftLinear(x: bv32, y: bv32)
    ensures Shift(Xor(x, y)) == Xor(Shift(x), Shift(y))
  {
    hide Top, Xor, Double;
    XorDouble(x, y);
    XorTop(x, y);
    XorBoth(Double(x), Double(y), POLYNOMIAL);
    XorLeft(Double(x), Double(y), POLYNOMIAL);
    XorAssoc(Double(x), Double(y), POLYNOMIAL);
  }

  lemma {:induction false} ShiftsLinear(x: bv32, y: bv32, n: nat)
    ensures Shifts(Xor(x, y), n) == Xor(Shifts(x, n), Shifts(y, n))
  {
    hide Shift, Xor;
    if n > 0 {
      ShiftsLinear(x, y, n - 1);
      ShiftLinear(Shifts(x, n - 1), Shifts(y, n - 1));
    }
  }

  lemma {:induction false} ShiftsAdd(x: bv32, m: nat, n: nat)
    ensures Shifts(Shifts(x, m), n) == Shifts(x, m + n)
  {
    hide Shift;
    if n > 0 {
      ShiftsAdd(x, m, n - 1);
    }
  }

  // Eight bits pass through a register whose top byte is clear unchanged.
  lemma ShiftClear(w: bv32)
    requires w & 0xff00_0000 == 0
    ensures Shifts(w, 8) == w << 8
  {
    hide Top, Xor, Double;
    var w1 := Double(w);
    var w2 := Double(w1);
    var w3 := Double(w2);
    var w4 := Double(w3);
    var w5 := Double(w4);
    var w6 := Double(w5);
    var w7 := Double(w6);
    ClearOne(w);
    ClearTwo(w1);
    ClearThree(w2);
    ClearFour(w3);
    ClearFive(w4);
    ClearSix(w5);
    ClearSeven(w6);
    ClearEight(w7);
    assert Shifts(w, 1) == w1;
    assert Shifts(w, 2) == w2;
    assert Shifts(w, 3) == w3;
    assert Shifts(w, 4) == w4;
    assert Shifts(w, 5) == w5;
    assert Shifts(w, 6) == w6;
    assert Shifts(w, 7) == w7;
    DoubleEight(w);
  }

  lemma DoubleEight(w: bv32)
    ensures Double(Double(Double(Double(Double(Double(Double(Double(w)))))))) == w << 8
  {
  }

  lemma ClearOne(w: bv32)
    requires w & 0xff000000 == 0
    ensures !Top(w) && Double(w) & 0xfe000000 == 0
  {
  }

  lemma ClearTwo(w: bv32)
    requires w & 0xfe000000 == 0
    ensures !Top(w) && Double(w) & 0xfc000000 == 0
  {
  }

  lemma ClearThree(w: bv32)
    requires w & 0xfc000000 == 0
    ensures !Top(w) && Double(w) & 0xf8000000 == 0
  {
  }

  lemma ClearFour(w: bv32)
    requires w & 0xf8000000 == 0
    ensures !Top(w) && Double(w) & 0xf0000000 == 0
  {
  }

  lemma ClearFive(w: bv32)
    requires w & 0xf0000000 == 0
    ensures !Top(w) && Double(w) & 0xe0000000 == 0
  {
  }

  lemma ClearSix(w: bv32)
    requires w & 0xe0000000 == 0
    ensures !Top(w) && Double(w) & 0xc0000000 == 0
  {
  }

  lemma ClearSeven(w: bv32)
    requires w & 0xc0000000 == 0
    ensures !Top(w) && Double(w) & 0x80000000 == 0
  {
  }

  lemma ClearEight(w: bv32)
    requires w & 0x80000000 == 0
    ensures !Top(w)
  {
  }

  // A byte on its way to the top of the register.
  function At(b: Byte, place: nat): (w: bv32)
    requires place < 4
  {
    match place
    case 0 => b as bv32
    case 1 => (b as bv32) << 8
    case 2 => (b as bv32) << 16
    case 3 => (b as bv32) << 24
  }

  lemma FeedAt(crc: bv32, b: Byte)
    ensures Feed(crc, b) == Shifts(Xor(crc, At(b, 3)), 8)
  {
  }

  lemma AtClimbs(b: Byte)
    ensures Shifts(At(b, 2), 8) == At(b, 3)
    ensures Shifts(At(b, 1), 16) == At(b, 3)
    ensures Shifts(At(b, 0), 24) == At(b, 3)
  {
    hide Shifts;
    AtClear(b);
    ShiftClear(At(b, 0));
    ShiftClear(At(b, 1));
    ShiftClear(At(b, 2));
    ShiftsAdd(At(b, 1), 8, 8);
    ShiftsAdd(At(b, 0), 8, 16);
  }

  lemma AtClear(b: Byte)
    ensures At(b, 0) & 0xff00_0000 == 0 && At(b, 1) & 0xff00_0000 == 0 && At(b, 2) & 0xff00_0000 == 0
    ensures At(b, 0) << 8 == At(b, 1) && At(b, 1) << 8 == At(b, 2) && At(b, 2) << 8 == At(b, 3)
  {
  }

  // Feeding one byte after n shifts is shifting the byte's own word in first.
  lemma FeedLater(x: bv32, n: nat, b: Byte, w: bv32)
    requires Shifts(w, n) == At(b, 3)
    ensures Feed(Shifts(x, n), b) == Shifts(Xor(x, w), n + 8)
  {
    hide Shifts, Feed, Xor, At;
    FeedAt(Shifts(x, n), b);
    ShiftsLinear(x, w, n);
    ShiftsAdd(Xor(x, w), n, 8);
  }

  // Four bytes at once: the register after them is the register before, combined with
  // the bytes as one word, after 32 shifts.
  function Word(a: Byte, b: Byte, c: Byte, d: Byte): bv32 {
    Xor(Xor(Xor(At(a, 3), At(b, 2)), At(c, 1)), At(d, 0))
  }

  lemma WordForm(a: Byte, b: Byte, c: Byte, d: Byte)
    ensures Word(a, b, c, d) == ((a as bv32) << 24) ^ ((b as bv32) << 16) ^ ((c as bv32) << 8) ^ (d as bv32)
  {
  }

  lemma WordInjective(a: Byte, b: Byte, c: Byte, d: Byte, a': Byte, b': Byte, c': Byte, d': Byte)
    requires ((a as bv32) << 24) ^ ((b as bv32) << 16) ^ ((c as bv32) << 8) ^ (d as bv32)
             == ((a' as bv32) << 24) ^ ((b' as bv32) << 16) ^ ((c' as bv32) << 8) ^ (d' as bv32)
    ensures a == a' && b == b' && c == c' && d == d'
  {
  }

  lemma FeedFour(crc: bv32, a: Byte, b: Byte, c: Byte, d: Byte)
    ensures Feed(Feed(Feed(Feed(crc, a), b), c), d) == Shifts(Xor(crc, Word(a, b, c, d)), 32)
  {
    hide Shifts, Feed, Xor, At;
    var x0 := Xor(crc, At(a, 3));
    var x1 := Xor(x0, At(b, 2));
    var x2 := Xor(x1, At(c, 1));
    FeedAt(crc, a);
    AtClimbs(b);
    AtClimbs(c);
    AtClimbs(d);
    FeedLater(x0, 8, b, At(b, 2));
    FeedLater(x1, 16, c, At(c, 1));
    FeedLater(x2, 24, d, At(d, 0));
    XorAssoc(crc, At(a, 3), At(b, 2));
    XorAssoc(crc, Xor(At(a, 3), At(b, 2)), At(c, 1));
    XorAssoc(crc, Xor(Xor(At(a, 3), At(b, 2)), At(c, 1)), At(d, 0));
  }

  lemma RegisterFour(crc: bv32, w: seq<Byte>)
    requires |w| == 4
    ensures Register(crc, w) == Feed(Feed(Feed(Feed(crc, w[0]), w[1]), w[2]), w[3])
  {
    hide Feed;
    var c1 := Feed(crc, w[0]);
    var c2 := Feed(c1, w[1]);
    var c3 := Feed(c2, w[2]);
    assert Register(c3, w[3..]) == Feed(c3, w[3]) by {
      assert w[3..][1..] == [];
    }
    assert Register(c2, w[2..]) == Register(c3, w[3..]) by {
      assert w[2..][1..] == w[3..];
    }
    assert Register(c1, w[1..]) == Register(c2, w[2..]) by {
      assert w[1..][1..] == w[2..];
    }
  }

  // Two messages of equal length that differ only within four consecutive bytes have
  // different checksums.
  lemma BurstDetected(m: seq<Byte>, m': seq<Byte>, at: nat)
    requires |m| == |m'| && at + 4 <= |m|
    requires m[..at] == m'[..at] && m[at + 4..] == m'[at + 4..] && m != m'
    ensures Checksum(m) != Checksum(m')
  {
    hide Register, Shifts, Word, Feed, Xor;
    var x, y, w, w' := m[..at], m[at + 4..], m[at..at + 4], m'[at..at + 4];
    assert m == x + (w + y) && m' == x + (w' + y);
    var r := Register(0, x);
    RegisterAppend(0, x, w + y);
    RegisterAppend(0, x, w' + y);
    RegisterAppend(r, w, y);
    RegisterAppend(r, w', y);
    if Checksum(m) == Checksum(m') {
      RegisterInjective(Register(r, w), Register(r, w'), y);
      RegisterFour(r, w);
      RegisterFour(r, w');
      FeedFour(r, w[0], w[1], w[2], w[3]);
      FeedFour(r, w'[0], w'[1], w'[2], w'[3]);
      var u, u' := Word(w[0], w[1], w[2], w[3]), Word(w'[0], w'[1], w'[2], w'[3]);
      ShiftsInjective(Xor(r, u), Xor(r, u'), 32);
      SameWord(r, u, u');
      WordForm(w[0], w[1], w[2], w[3]);
      WordForm(w'[0], w'[1], w'[2], w'[3]);
      WordInjective(w[0], w[1], w[2], w[3], w'[0], w'[1], w'[2], w'[3]);
      SameFour(w, w');
    }
  }

  lemma SameFour(w: seq<Byte>, w': seq<Byte>)
    requires |w| == |w'| == 4
    ensures w == w' <==> w[0] == w'[0] && w[1] == w'[1] && w[2] == w'[2] && w[3] == w'[3]
  {
  }

  lemma SameWord(r: bv32, u: bv32, u': bv32)
    ensures Xor(r, u) == Xor(r, u') ==> u == u'
  {
  }
}
