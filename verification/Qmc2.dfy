// The two stream ciphers of the helper and the loop that drives them over a file.
//
// The segment key is computed in floating point from the key's hash; here it is any
// function of the segment and the key byte selected for it.
module Qmc2 {
  import opened Bytes

  type SegmentKey = (nat, Byte) -> nat

  const FIRST_SEGMENT_SIZE: nat := 0x80
  const OTHER_SEGMENT_SIZE: nat := 0x1400
  const MAX_INPUT_BYTES: nat := 500_000_000
  const CHUNK_BYTES: nat := 64 * 1024

  function Wrap(x: nat, n: nat): (r: nat)
    requires n > 0
    ensures r < n
  {
    x % n
  }

  // ----- The box ---------------------------------------------------------------------

  function Swapped(s: seq<Byte>, i: nat, j: nat): (r: seq<Byte>)
    requires i < |s| && j < |s|
    ensures |r| == |s|
  {
    s[i := s[j]][j := s[i]]
  }

  // Byte values in order, wrapping around.
  function Fill(n: nat): (s: seq<Byte>)
    ensures |s| == n
  {
    seq(n, i requires 0 <= i < n => Low(i))
  }

  datatype Schedule = Schedule(s: seq<Byte>, j: nat)

  // The key schedule after i swaps.
  function Scheduled(key: seq<Byte>, i: nat): (r: Schedule)
    requires key != [] && i <= |key|
    ensures |r.s| == |key| && r.j < |key|
  {
    if i == 0 then Schedule(Fill(|key|), 0)
    else
      var before := Scheduled(key, i - 1);
      var j := Wrap(before.j + Value(before.s[i - 1]) + Value(key[i - 1]), |key|);
      Schedule(Swapped(before.s, i - 1, j), j)
  }

  lemma ScheduleStart(key: seq<Byte>)
    requires key != []
    ensures Scheduled(key, 0) == Schedule(Fill(|key|), 0)
  {
  }

  lemma ScheduleStep(key: seq<Byte>, i: nat)
    requires key != [] && i < |key|
    ensures var before := Scheduled(key, i);
            var j := Wrap(before.j + Value(before.s[i]) + Value(key[i]), |key|);
            Scheduled(key, i + 1) == Schedule(Swapped(before.s, i, j), j)
  {
    hide Swapped, Value, Wrap, Fill;
  }

  function Box(key: seq<Byte>): (s: seq<Byte>)
    requires key != []
    ensures |s| == |key|
  {
    Scheduled(key, |key|).s
  }

  datatype Generator = Generator(s: seq<Byte>, j: nat, k: nat)

  predicate Ready(g: Generator) {
    g.s != [] && g.j < |g.s| && g.k < |g.s|
  }

  function Advance(g: Generator): (r: Generator)
    requires Ready(g)
    ensures Ready(r) && |r.s| == |g.s|
  {
    var j := Wrap(g.j + 1, |g.s|);
    var k := Wrap(Value(g.s[j]) + g.k, |g.s|);
    Generator(Swapped(g.s, j, k), j, k)
  }

  function Output(g: Generator): Byte
    requires Ready(g)
  {
    g.s[Wrap(Value(g.s[g.j]) + Value(g.s[g.k]), |g.s|)]
  }

  // The generator after `count` bytes.
  function After(box: seq<Byte>, count: nat): (g: Generator)
    requires box != []
    ensures Ready(g) && |g.s| == |box|
  {
    if count == 0 then Generator(box, 0, 0) else Advance(After(box, count - 1))
  }

  lemma SwapPermutes(s: seq<Byte>, i: nat, j: nat)
    requires i < |s| && j < |s|
    ensures multiset(Swapped(s, i, j)) == multiset(s)
  {
  }

  // Neither scheduling nor generating ever loses or duplicates a value of the box.
  lemma {:induction false} SchedulePermutes(key: seq<Byte>, i: nat)
    requires key != [] && i <= |key|
    ensures multiset(Scheduled(key, i).s) == multiset(Fill(|key|))
  {
    hide Swapped, Fill, Value, Wrap;
    if i > 0 {
      SchedulePermutes(key, i - 1);
      var before := Scheduled(key, i - 1);
      SwapPermutes(before.s, i - 1, Wrap(before.j + Value(before.s[i - 1]) + Value(key[i - 1]), |key|));
    }
  }

  lemma {:induction false} GeneratorPermutes(box: seq<Byte>, count: nat)
    requires box != []
    ensures multiset(After(box, count).s) == multiset(box)
  {
    hide Swapped, Value, Wrap;
    if count > 0 {
      GeneratorPermutes(box, count - 1);
      var g := After(box, count - 1);
      var j := Wrap(g.j + 1, |g.s|);
      SwapPermutes(g.s, j, Wrap(Value(g.s[j]) + g.k, |g.s|));
    }
  }

  // ----- The key stream ------------------------------------------------------------------

  datatype Cipher = MapCipher(key: seq<Byte>) | Rc4Cipher(key: seq<Byte>, segmentKey: SegmentKey)

  // Keys have at least eight bytes; those over 300 select the second cipher.
  predicate ValidCipher(c: Cipher) {
    match c
    case MapCipher(key) => 8 <= |key| <= 300
    case Rc4Cipher(key, _) => |key| > 300
  }

  // The bits shifted left and right by the same amount.
  function Scramble(value: Byte, index: nat): Byte {
    var amount := ShiftAt(index);
    (value << amount) | (value >> amount)
  }

  function ShiftAt(index: nat): (amount: nat)
    ensures amount < 8
  {
    (index + 4) % 8
  }

  // Shifting both ways by the amount is rotating by it.
  ghost predicate Turns(value: Byte, amount: nat)
    requires amount < 8
  {
    (value << amount) | (value >> amount) == value.RotateLeft(amount)
  }

  lemma TurnsByNone(value: Byte)
    ensures Turns(value, 0)
  {
  }

  lemma TurnsByHalf(value: Byte)
    ensures Turns(value, 4)
  {
  }

  // By any other amount the top bit goes astray.
  lemma TopBitStrays(amount: nat)
    requires amount < 8 && amount != 0 && amount != 4
    ensures !Turns(0x80, amount)
  {
    match amount
    case 1 =>
    case 2 =>
    case 3 =>
    case 5 =>
    case 6 =>
    case 7 =>
  }

  lemma FourthShifts(index: nat)
    ensures index % 4 == 0 <==> ShiftAt(index) == 0 || ShiftAt(index) == 4
  {
  }

  // The source calls the scrambling a bit rotation.  It is one at every fourth index only.
  lemma ScrambleIsRotation(index: nat)
    ensures (forall value: Byte :: Turns(value, ShiftAt(index))) <==> index % 4 == 0
  {
    hide Turns, ShiftAt;
    var amount := ShiftAt(index);
    FourthShifts(index);
    if amount == 0 || amount == 4 {
      forall value: Byte
        ensures Turns(value, amount)
      {
        TurnsByNone(value);
        TurnsByHalf(value);
      }
    } else {
      TopBitStrays(amount);
    }
  }

  function MapByte(key: seq<Byte>, offset: nat): Byte
    requires key != []
  {
    var local := if offset > 0x7fff then offset % 0x7fff else offset;
    var index := (local * local + 71214) % |key|;
    Scramble(key[index], index)
  }

  // The key byte that seeds a segment is picked by the segment's number modulo 512.
  function SegmentIndex(offset: nat): nat {
    (offset / OTHER_SEGMENT_SIZE) % 0x200
  }

  function Discarded(key: seq<Byte>, segmentKey: SegmentKey, offset: nat): nat
    requires SegmentIndex(offset) < |key|
  {
    segmentKey(offset / OTHER_SEGMENT_SIZE, key[SegmentIndex(offset)]) % 0x200 + offset % OTHER_SEGMENT_SIZE
  }

  function FirstByte(key: seq<Byte>, segmentKey: SegmentKey, offset: nat): Byte
    requires key != []
  {
    key[segmentKey(offset, key[offset % |key|]) % |key|]
  }

  function OtherByte(key: seq<Byte>, segmentKey: SegmentKey, offset: nat): Byte
    requires SegmentIndex(offset) < |key|
  {
    Output(After(Box(key), Discarded(key, segmentKey, offset) + 1))
  }

  // The offsets whose segment has a key byte.
  predicate Covered(c: Cipher, offset: nat) {
    c.MapCipher? || offset < FIRST_SEGMENT_SIZE || SegmentIndex(offset) < |c.key|
  }

  function StreamByte(c: Cipher, offset: nat): Byte
    requires ValidCipher(c) && Covered(c, offset)
  {
    match c
    case MapCipher(key) => MapByte(key, offset)
    case Rc4Cipher(key, segmentKey) =>
      if offset < FIRST_SEGMENT_SIZE then FirstByte(key, segmentKey, offset) else OtherByte(key, segmentKey, offset)
  }

  predicate RangeCovered(c: Cipher, offset: nat, length: nat) {
    forall i :: offset <= i < offset + length ==> Covered(c, i)
  }

  // Data combined with the key stream from an offset on.
  function Applied(c: Cipher, offset: nat, data: seq<Byte>): (r: seq<Byte>)
    requires ValidCipher(c) && RangeCovered(c, offset, |data|)
    ensures |r| == |data|
  {
    seq(|data|, i requires 0 <= i < |data| => data[i] ^ StreamByte(c, offset + i))
  }

  // `now` is `was` with the bytes from lo to hi combined with the key stream; the byte
  // at index x is at offset base + x.
  ghost predicate Keyed(c: Cipher, base: int, was: seq<Byte>, now: seq<Byte>, lo: nat, hi: nat)
    requires ValidCipher(c) && 0 <= base + lo && RangeCovered(c, base + lo, if lo <= hi then hi - lo else 0)
  {
    |now| == |was| && forall x :: 0 <= x < |was| ==> now[x] == if lo <= x < hi then
      was[x] ^ StreamByte(c, base + x) else was[x]
  }

  lemma KeyedJoin(c: Cipher, base: int, a: seq<Byte>, b: seq<Byte>, d: seq<Byte>, lo: nat, mid: nat, hi: nat)
    requires ValidCipher(c) && 0 <= base + lo && lo <= mid <= hi && RangeCovered(c, base + lo, hi - lo)
    requires Keyed(c, base, a, b, lo, mid) && Keyed(c, base, b, d, mid, hi)
    ensures Keyed(c, base, a, d, lo, hi)
  {
    hide StreamByte, Covered;
  }

  // Applying it twice gives the data back.
  lemma AppliedTwice(c: Cipher, offset: nat, data: seq<Byte>)
    requires ValidCipher(c) && RangeCovered(c, offset, |data|)
    ensures Applied(c, offset, Applied(c, offset, data)) == data
  {
    hide StreamByte;
    forall i | 0 <= i < |data|
      ensures Applied(c, offset, Applied(c, offset, data))[i] == data[i]
    {
      XorTwice(data[i], StreamByte(c, offset + i));
    }
  }

  lemma XorTwice(x: Byte, y: Byte)
    ensures (x ^ y) ^ y == x
  {
  }

  // Chunks decrypted one after the other, each at its own running offset.
  function AppliedChunks(c: Cipher, offset: nat, chunks: seq<seq<Byte>>): (r: seq<seq<Byte>>)
    requires ValidCipher(c) && RangeCovered(c, offset, |Flatten(chunks)|)
    ensures |r| == |chunks|
    decreases |chunks|
  {
    if chunks == [] then []
    else [Applied(c, offset, chunks[0])] + AppliedChunks(c, offset + |chunks[0]|, chunks[1..])
  }

  lemma AppliedAppend(c: Cipher, offset: nat, a: seq<Byte>, b: seq<Byte>)
    requires ValidCipher(c) && RangeCovered(c, offset, |a + b|)
    ensures Applied(c, offset, a + b) == Applied(c, offset, a) + Applied(c, offset + |a|, b)
  {
    hide StreamByte, Covered;
  }

  // However the data is cut up, the pieces put together are the whole.
  lemma {:induction false} ChunksAgree(c: Cipher, offset: nat, chunks: seq<seq<Byte>>)
    requires ValidCipher(c) && RangeCovered(c, offset, |Flatten(chunks)|)
    ensures Flatten(AppliedChunks(c, offset, chunks)) == Applied(c, offset, Flatten(chunks))
    decreases |chunks|
  {
    hide Covered;
    if chunks != [] {
      hide Applied;
      ChunksAgree(c, offset + |chunks[0]|, chunks[1..]);
      AppliedAppend(c, offset, chunks[0], Flatten(chunks[1..]));
    }
  }

  // ----- When the second cipher runs out of key ----------------------------------------------

  // Every offset is covered exactly when the key has 512 bytes or more; a shorter one
  // covers the first |key| segments and no byte after them.
  lemma CoveredPrefix(c: Cipher, length: nat)
    requires ValidCipher(c)
    ensures RangeCovered(c, 0, length) <==>
              c.MapCipher? || |c.key| >= 0x200 || length <= |c.key| * OTHER_SEGMENT_SIZE
  {
    if c.Rc4Cipher? && |c.key| < 0x200 {
      var n := |c.key| * OTHER_SEGMENT_SIZE;
      if length > n {
        assert SegmentIndex(n) == |c.key|;
        assert !Covered(c, n);
      } else {
        forall i | 0 <= i < length
          ensures Covered(c, i)
        {
          assert i / OTHER_SEGMENT_SIZE < |c.key|;
        }
      }
    }
  }

  // ----- The ciphers as the program runs them ---------------------------------------------------

  class Rc4Crypto {
    const rc4Key: seq<Byte>
    const segmentKey: SegmentKey
    const s: seq<Byte>

    ghost predicate Valid() {
      |rc4Key| > 300 && s == Box(rc4Key)
    }

    ghost function Model(): Cipher {
      Rc4Cipher(rc4Key, segmentKey)
    }

    constructor (key: seq<Byte>, segmentKey: SegmentKey)
      requires |key| > 300
      ensures Valid() && Model() == Rc4Cipher(key, segmentKey)
    {
      var box := ScheduleKey(key);
      rc4Key, this.segmentKey, s := key, segmentKey, box[..];
    }

    static method ScheduleKey(key: seq<Byte>) returns (box: array<Byte>)
      requires key != []
      ensures fresh(box) && box[..] == Box(key)
    {
      hide Scheduled, Fill, Wrap, Value;
      var n := |key|;
      box := FillBox(n);
      ScheduleStart(key);
      var j := 0;
      for i := 0 to n
        invariant fresh(box) && box.Length == n && 0 <= j < n
        invariant Schedule(box[..], j) == Scheduled(key, i)
      {
        ghost var before := box[..];
        ScheduleStep(key, i);
        j := Wrap(j + Value(box[i]) + Value(key[i]), n);
        box[i], box[j] := box[j], box[i];
        assert box[..] == Swapped(before, i, j);
      }
    }

    static method FillBox(n: nat) returns (box: array<Byte>)
      ensures fresh(box) && box[..] == Fill(n)
    {
      hide Low;
      box := new Byte[n];
      for i := 0 to n
        invariant forall k :: 0 <= k < i ==> box[k] == Low(k)
      {
        box[i] := Low(i);
      }
    }

    static method Derive(s: array<Byte>, j0: nat, k0: nat) returns (b: Byte, j: nat, k: nat)
      requires s.Length > 0 && j0 < s.Length && k0 < s.Length
      modifies s
      ensures var g := Advance(old(Generator(s[..], j0, k0)));
              Generator(s[..], j, k) == g && b == Output(g)
    {
      hide Wrap, Value;
      ghost var before := s[..];
      var n := s.Length;
      j := Wrap(j0 + 1, n);
      k := Wrap(Value(s[j]) + k0, n);
      s[j], s[k] := s[k], s[j];
      assert s[..] == Swapped(before, j, k);
      var index := Value(s[j]) + Value(s[k]);
      b := s[Wrap(index, n)];
    }

    method EncodeFirstSegment(offset: nat, buf: array<Byte>, lo: nat, hi: nat)
      requires Valid() && lo <= hi <= buf.Length && offset + (hi - lo) <= FIRST_SEGMENT_SIZE
      modifies buf
      ensures Keyed(Model(), offset - lo, old(buf[..]), buf[..], lo, hi)
    {
      var n := |rc4Key|;
      for x := lo to hi
        invariant Keyed(Model(), offset - lo, old(buf[..]), buf[..], lo, x)
      {
        var local := offset + x - lo;
        var key1 := rc4Key[local % n];
        var key2 := segmentKey(local, key1);
        buf[x] := buf[x] ^ rc4Key[key2 % n];
      }
    }

    lemma IsStreamByte(offset: nat, x: nat, length: nat, b: Byte)
      requires Valid() && offset >= FIRST_SEGMENT_SIZE && x < length
      requires SegmentIndex(offset) < |rc4Key| && offset % OTHER_SEGMENT_SIZE + length <= OTHER_SEGMENT_SIZE
      requires b == Output(After(s, Discarded(rc4Key, segmentKey, offset) + x + 1))
      ensures Covered(Model(), offset + x) && b == StreamByte(Model(), offset + x)
    {
      hide After, Output, Box;
      SameSegment(rc4Key, segmentKey, offset, length);
    }

    // One segment, or the part of it that is there.  Indexing the key may fail.
    method EncodeOtherSegment(offset: nat, buf: array<Byte>, lo: nat, hi: nat) returns (ok: bool)
      requires Valid() && lo <= hi <= buf.Length
      requires offset >= FIRST_SEGMENT_SIZE || lo == hi
      requires offset % OTHER_SEGMENT_SIZE + (hi - lo) <= OTHER_SEGMENT_SIZE
      modifies buf
      ensures ok <==> SegmentIndex(offset) < |rc4Key|
      ensures !ok ==> buf[..] == old(buf[..])
      ensures ok ==> RangeCovered(Model(), offset, hi - lo)
      ensures ok ==> Keyed(Model(), offset - lo, old(buf[..]), buf[..], lo, hi)
    {
      hide Advance, Output, Box;
      var id := offset / OTHER_SEGMENT_SIZE;
      var small := id % 0x200;
      if small >= |rc4Key| {
        return false;
      }
      var discard := segmentKey(id, rc4Key[small]) % 0x200 + offset % OTHER_SEGMENT_SIZE;
      var box := new Byte[|s|](i requires 0 <= i < |s| => s[i]);
      assert box[..] == s;
      var j, k := 0, 0;
      for i := 0 to discard
        invariant fresh(box) && box.Length == |s|
        invariant Generator(box[..], j, k) == After(s, i)
        invariant buf[..] == old(buf[..])
      {
        var _, j', k' := Derive(box, j, k);
        j, k := j', k';
      }
      assert RangeCovered(Model(), offset, hi - lo) by {
        SameSegment(rc4Key, segmentKey, offset, hi - lo);
      }
      for x := lo to hi
        invariant fresh(box) && box.Length == |s|
        invariant Generator(box[..], j, k) == After(s, discard + (x - lo))
        invariant Keyed(Model(), offset - lo, old(buf[..]), buf[..], lo, x)
      {
        var b, j', k' := Derive(box, j, k);
        j, k := j', k';
        IsStreamByte(offset, x - lo, hi - lo, b);
        buf[x] := buf[x] ^ b;
      }
      ok := true;
    }

    // One more segment, or part of one, after the first `i` bytes are done.
    method EncodeNext(start: nat, length: nat, ghost was: seq<Byte>, buf: array<Byte>, i: nat, n: nat)
      returns (ok: bool)
      requires Valid() && i + n <= length <= buf.Length
      requires start + i >= FIRST_SEGMENT_SIZE || n == 0
      requires (start + i) % OTHER_SEGMENT_SIZE + n <= OTHER_SEGMENT_SIZE
      requires ValidCipher(Model()) && RangeCovered(Model(), start, i) && Keyed(Model(), start, was, buf[..], 0, i)
      modifies buf
      ensures ok <==> SegmentIndex(start + i) < |rc4Key|
      ensures !ok && i < length ==> !RangeCovered(Model(), start, length)
      ensures ok ==> RangeCovered(Model(), start, i + n) && Keyed(Model(), start, was, buf[..], 0, i + n)
    {
      hide Covered, RangeCovered, SegmentIndex, Keyed;
      ghost var before := buf[..];
      ok := EncodeOtherSegment(start + i, buf, i, i + n);
      if ok {
        RangeJoins(Model(), start, i, n);
        KeyedJoin(Model(), start, was, before, buf[..], 0, i, i + n);
      } else {
        UncoveredRange(Model(), start, length, start + i);
      }
    }

    // The first part of `buf` is decrypted in place, segment by segment.  Decrypting
    // nothing still looks up a key byte when the offset is inside a segment.
    method Decrypt(start: nat, buf: array<Byte>, length: nat) returns (ok: bool)
      requires Valid() && length <= buf.Length
      modifies buf
      ensures length > 0 ==> (ok <==> RangeCovered(Model(), start, length))
      ensures length == 0 ==> (ok <==> start % OTHER_SEGMENT_SIZE == 0 || SegmentIndex(start) < |rc4Key|)
      ensures ok ==> RangeCovered(Model(), start, length)
      ensures ok ==> Keyed(Model(), start, old(buf[..]), buf[..], 0, length)
    {
      hide ValidCipher, Valid, Covered, RangeCovered, SegmentIndex, Keyed;
      assert ValidCipher(Model()) && |rc4Key| > 0 by {
        ModelIsValid();
      }
      ghost var was := buf[..];
      NothingCovered(Model(), start);
      KeyedNothing(Model(), start, was);
      var offset: nat, len: nat, i: nat := start, length, 0;
      if offset < FIRST_SEGMENT_SIZE {
        var processed := Least(len, FIRST_SEGMENT_SIZE - offset);
        FirstRange(Model(), start, processed);
        EncodeFirstSegment(offset, buf, i, i + processed);
        i, len, offset := i + processed, len - processed, offset + processed;
      }
      var toAlign := offset % OTHER_SEGMENT_SIZE;
      if toAlign != 0 {
        var processed := Least(len, OTHER_SEGMENT_SIZE - toAlign);
        FillsSegment(offset, len, processed);
        ok := EncodeNext(start, length, was, buf, i, processed);
        if !ok {
          return;
        }
        i, len, offset := i + processed, len - processed, offset + processed;
      }
      while len > OTHER_SEGMENT_SIZE
        invariant i + len == length && offset == start + i
        invariant len > 0 ==> offset % OTHER_SEGMENT_SIZE == 0 && offset >= FIRST_SEGMENT_SIZE
        invariant length == 0 ==> start % OTHER_SEGMENT_SIZE == 0 || SegmentIndex(start) < |rc4Key|
        invariant RangeCovered(Model(), start, i)
        invariant Keyed(Model(), start, was, buf[..], 0, i)
      {
        ok := EncodeNext(start, length, was, buf, i, OTHER_SEGMENT_SIZE);
        if !ok {
          return;
        }
        i, len, offset := i + OTHER_SEGMENT_SIZE, len - OTHER_SEGMENT_SIZE, offset + OTHER_SEGMENT_SIZE;
      }
      if len > 0 {
        ok := EncodeNext(start, length, was, buf, i, len);
        if !ok {
          return;
        }
      }
      ok := true;
    }

    lemma ModelIsValid()
      requires Valid()
      ensures ValidCipher(Model()) && |rc4Key| > 0
    {
    }
  }

  lemma FirstRange(c: Cipher, start: nat, length: nat)
    requires start + length <= FIRST_SEGMENT_SIZE
    ensures RangeCovered(c, start, length) && SegmentIndex(start) == SegmentIndex(start + length) == 0
  {
  }

  lemma KeyedNothing(c: Cipher, start: nat, data: seq<Byte>)
    requires ValidCipher(c)
    ensures Keyed(c, start, data, data, 0, 0)
  {
  }

  lemma NothingCovered(c: Cipher, start: nat)
    ensures RangeCovered(c, start, 0)
  {
  }

  lemma RangeJoins(c: Cipher, start: nat, length: nat, more: nat)
    requires RangeCovered(c, start, length) && RangeCovered(c, start + length, more)
    ensures RangeCovered(c, start, length + more)
  {
    hide Covered;
  }

  // Filling up a segment, or all there is left, ends at a boundary or at the end.
  lemma FillsSegment(offset: nat, length: nat, processed: nat)
    requires offset % OTHER_SEGMENT_SIZE != 0
    requires processed == Least(length, OTHER_SEGMENT_SIZE - offset % OTHER_SEGMENT_SIZE)
    ensures offset % OTHER_SEGMENT_SIZE + processed <= OTHER_SEGMENT_SIZE
    ensures length - processed > 0 ==> (offset + processed) % OTHER_SEGMENT_SIZE == 0
  {
  }

  lemma UncoveredRange(c: Cipher, start: nat, length: nat, offset: nat)
    requires c.Rc4Cipher? && c.key != [] && SegmentIndex(offset) >= |c.key| && start <= offset
    ensures offset < start + length ==> !RangeCovered(c, start, length)
  {
    if offset < start + length {
      assert !Covered(c, offset);
    }
  }

  function Least(a: nat, b: nat): nat {
    if a <= b then a else b
  }

  class MapCrypto {
    const key: seq<Byte>

    ghost predicate Valid() {
      8 <= |key| <= 300
    }

    ghost function Model(): Cipher {
      MapCipher(key)
    }

    constructor (key: seq<Byte>)
      requires 8 <= |key| <= 300
      ensures Valid() && Model() == MapCipher(key)
    {
      this.key := key;
    }

    method Decrypt(start: nat, buf: array<Byte>, length: nat)
      requires Valid() && length <= buf.Length
      modifies buf
      ensures Keyed(Model(), start, old(buf[..]), buf[..], 0, length)
    {
      hide MapByte;
      for i := 0 to length
        invariant Keyed(Model(), start, old(buf[..]), buf[..], 0, i)
      {
        var mask := MapL(start + i);
        buf[i] := buf[i] ^ mask;
      }
    }

    method MapL(offset: nat) returns (mask: Byte)
      requires Valid()
      ensures mask == MapByte(key, offset)
    {
      hide Scramble;
      var local := offset;
      if local > 0x7fff {
        local := local % 0x7fff;
      }
      var index := (local * local + 71214) % |key|;
      mask := Scramble(key[index], index);
    }
  }

  // Along one segment the generator just runs on.
  lemma SameSegment(key: seq<Byte>, segmentKey: SegmentKey, offset: nat, length: nat)
    requires SegmentIndex(offset) < |key| && offset % OTHER_SEGMENT_SIZE + length <= OTHER_SEGMENT_SIZE
    ensures forall i :: offset <= i < offset + length ==>
              && SegmentIndex(i) == SegmentIndex(offset)
              && Discarded(key, segmentKey, i) == Discarded(key, segmentKey, offset) + (i - offset)
  {
    forall i | offset <= i < offset + length
      ensures i / OTHER_SEGMENT_SIZE == offset / OTHER_SEGMENT_SIZE
      ensures i % OTHER_SEGMENT_SIZE == offset % OTHER_SEGMENT_SIZE + (i - offset)
    {
      var q, r := offset / OTHER_SEGMENT_SIZE, offset % OTHER_SEGMENT_SIZE;
      assert i == OTHER_SEGMENT_SIZE * q + (r + (i - offset));
    }
  }
}
