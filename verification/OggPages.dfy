// Pages on the wire (RFC 3533, section 6) and the packets laced into them.
module OggPages {
  import opened Bytes
  import opened OggCrc

  // ----- Little-endian numbers -----------------------------------------------------

  function Capacity(width: nat): (n: nat)
    ensures n > 0
  {
    if width == 0 then 1 else 256 * Capacity(width - 1)
  }

  function LE(n: nat, width: nat): (s: seq<Byte>)
    ensures |s| == width
  {
    if width == 0 then [] else [Low(n)] + LE(n / 256, width - 1)
  }

  function FromLE(s: seq<Byte>): (n: nat) {
    if s == [] then 0 else Value(s[0]) + 256 * FromLE(s[1..])
  }

  lemma {:induction false} DecodeEncoded(n: nat, width: nat)
    requires n < Capacity(width)
    ensures FromLE(LE(n, width)) == n
  {
    hide Low, Value;
    if width > 0 {
      DecodeEncoded(n / 256, width - 1);
      LowValue(n);
      assert LE(n, width)[1..] == LE(n / 256, width - 1);
    }
  }

  lemma {:induction false} EncodeDecoded(s: seq<Byte>)
    ensures FromLE(s) < Capacity(|s|) && LE(FromLE(s), |s|) == s
    decreases |s|
  {
    hide Low, Value;
    if s != [] {
      EncodeDecoded(s[1..]);
      var n, rest := FromLE(s), FromLE(s[1..]);
      assert n / 256 == rest && n % 256 == Value(s[0]);
      LowValue(n);
      ValueLow(s[0]);
      ValueInjective(Low(n), s[0]);
      assert s == [s[0]] + s[1..];
    }
  }

  // The checksum's four bytes.
  function Bytes32(c: bv32): (s: seq<Byte>)
    ensures |s| == 4
  {
    [(c & 0xff) as bv8, ((c >> 8) & 0xff) as bv8, ((c >> 16) & 0xff) as bv8, ((c >> 24) & 0xff) as bv8]
  }

  function FromBytes32(s: seq<Byte>): bv32
    requires |s| == 4
  {
    (s[0] as bv32) | ((s[1] as bv32) << 8) | ((s[2] as bv32) << 16) | ((s[3] as bv32) << 24)
  }

  lemma Bytes32Round(c: bv32)
    ensures FromBytes32(Bytes32(c)) == c
  {
  }

  lemma Bytes32Injective(s: seq<Byte>)
    requires |s| == 4
    ensures Bytes32(FromBytes32(s)) == s
  {
    Bytes32At(s[0], s[1], s[2], s[3]);
  }

  lemma Bytes32At(a: Byte, b: Byte, c: Byte, d: Byte)
    ensures var w := (a as bv32) | ((b as bv32) << 8) | ((c as bv32) << 16) | ((d as bv32) << 24);
            (w & 0xff) as bv8 == a && ((w >> 8) & 0xff) as bv8 == b && ((w >> 16) & 0xff) as bv8 == c
                && ((w >> 24) & 0xff) as bv8 == d
  {
  }

  // ----- Pages -----------------------------------------------------------------------

  const CAPTURE: seq<Byte> := [0x4f, 0x67, 0x67, 0x53]
  const HEADER: nat := 27

  datatype Page = Page(flags: Byte, granule: nat, serial: nat, sequence: nat, lacing: seq<Byte>, body: seq<Byte>)

  function Total(lacing: seq<Byte>): nat {
    if lacing == [] then 0 else Value(lacing[0]) + Total(lacing[1..])
  }

  predicate WellFormed(p: Page) {
    && p.flags & 0xf8 == 0 && p.granule < Capacity(8) && p.serial < Capacity(4) && p.sequence < Capacity(4)
    && |p.lacing| <= 255 && |p.body| == Total(p.lacing)
  }

  function Size(p: Page): nat {
    HEADER + |p.lacing| + |p.body|
  }

  // The header, around whatever stands in its checksum field.
  function Header(p: Page, crc: seq<Byte>): (h: seq<Byte>)
    requires |crc| == 4
    ensures |h| == HEADER
  {
    CAPTURE + [0, p.flags] + LE(p.granule, 8) + LE(p.serial, 4) + LE(p.sequence, 4) + crc + [Low(|p.lacing|)]
  }

  // The checksum is taken over the page with its own field zero.
  function PageChecksum(p: Page): bv32 {
    Checksum(Header(p, [0, 0, 0, 0]) + p.lacing + p.body)
  }

  function Serialize(p: Page): (s: seq<Byte>)
    ensures |s| == Size(p)
  {
    Header(p, Bytes32(PageChecksum(p))) + p.lacing + p.body
  }

  datatype Error =
    | TooSmall | AfterEos | HeaderTruncated | BadCapture | UnknownFlags | LacingTruncated | BodyTruncated | BadChecksum
    | BadFirstPage | LateBos | OtherStream | BadSequence | BadContinuation | PacketTooLong
    | BadSignature | BadIdentification | BadShape | MissingFraming
    | GranuleBackwards | EosInsidePacket | TooManyPages | Incomplete

  datatype Result<+T> = Ok(value: T) | Err(error: Error)

  function ZeroField(page: seq<Byte>): (z: seq<Byte>)
    requires |page| >= HEADER
    ensures |z| == |page|
  {
    page[..22] + [0, 0, 0, 0] + page[26..]
  }

  predicate ChecksumMatches(page: seq<Byte>)
    requires |page| >= HEADER
  {
    Checksum(ZeroField(page)) == FromBytes32(page[22..26])
  }

  function PageOf(page: seq<Byte>, segments: nat): Page
    requires HEADER + segments <= |page|
  {
    Page(page[5], FromLE(page[6..14]), FromLE(page[14..18]), FromLE(page[18..22]), page[HEADER..HEADER + segments],
         page[HEADER + segments..])
  }

  // One page from the front of what is left of the file.
  function ReadPage(rest: seq<Byte>): (r: Result<Page>)
    ensures r.Ok? ==> HEADER <= Size(r.value) <= |rest|
  {
    if |rest| < HEADER then Err(HeaderTruncated)
    else if rest[..4] != CAPTURE || rest[4] != 0 then Err(BadCapture)
    else if rest[5] & 0xf8 != 0 then Err(UnknownFlags)
    else
      var segments := Value(rest[26]);
      if |rest| < HEADER + segments then Err(LacingTruncated)
      else
        var length := HEADER + segments + Total(rest[HEADER..HEADER + segments]);
        if |rest| < length then Err(BodyTruncated)
        else if !ChecksumMatches(rest[..length]) then Err(BadChecksum)
        else Ok(PageOf(rest[..length], segments))
  }

  // ----- Reading and writing are inverse -----------------------------------------------

  lemma HeaderFields(p: Page, crc: seq<Byte>, tail: seq<Byte>)
    requires |crc| == 4
    ensures var s := Header(p, crc) + tail;
            && s[..4] == CAPTURE && s[4] == 0 && s[5] == p.flags
            && s[6..14] == LE(p.granule, 8) && s[14..18] == LE(p.serial, 4) && s[18..22] == LE(p.sequence, 4)
            && s[22..26] == crc && s[26] == Low(|p.lacing|) && s[HEADER..] == tail
            && s[..22] == Header(p, [0, 0, 0, 0])[..22]
  {
    hide LE, Low;
    var s := Header(p, crc) + tail;
    assert s[26] == Header(p, crc)[26];
  }

  lemma SerializedFieldZero(p: Page)
    ensures ZeroField(Serialize(p)) == Header(p, [0, 0, 0, 0]) + p.lacing + p.body
  {
    hide LE, Low, PageChecksum, Bytes32;
    var crc := Bytes32(PageChecksum(p));
    HeaderFields(p, crc, p.lacing + p.body);
    HeaderFields(p, [0, 0, 0, 0], p.lacing + p.body);
    assert Serialize(p) == Header(p, crc) + (p.lacing + p.body);
    var z := Header(p, [0, 0, 0, 0]) + (p.lacing + p.body);
    assert z == Header(p, [0, 0, 0, 0]) + p.lacing + p.body;
    assert z[..22] + [0, 0, 0, 0] + z[26..] == z by {
      assert z[22..26] == [0, 0, 0, 0];
    }
    assert Serialize(p)[26..] == [Low(|p.lacing|)] + (p.lacing + p.body);
  }

  // What stands where in a written page.
  ghost predicate Fields(s: seq<Byte>, p: Page) {
    && |s| == Size(p)
    && s[..4] == CAPTURE && s[4] == 0 && s[5] == p.flags
    && FromLE(s[6..14]) == p.granule && FromLE(s[14..18]) == p.serial && FromLE(s[18..22]) == p.sequence
    && Value(s[26]) == |p.lacing| && s[HEADER..] == p.lacing + p.body
  }

  lemma SerializedFields(p: Page)
    requires WellFormed(p)
    ensures Fields(Serialize(p), p) && Serialize(p)[22..26] == Bytes32(PageChecksum(p))
  {
    hide LE, Low, FromLE, Value, PageChecksum, Bytes32, Capacity, Header;
    var crc := Bytes32(PageChecksum(p));
    HeaderFields(p, crc, p.lacing + p.body);
    assert Serialize(p) == Header(p, crc) + (p.lacing + p.body);
    LowValue(|p.lacing|);
    DecodeEncoded(p.granule, 8);
    DecodeEncoded(p.serial, 4);
    DecodeEncoded(p.sequence, 4);
  }

  lemma SerializedField(p: Page)
    ensures Serialize(p)[22..26] == Bytes32(PageChecksum(p))
  {
    hide PageChecksum, Bytes32, LE, Low;
    var crc := Bytes32(PageChecksum(p));
    HeaderFields(p, crc, p.lacing + p.body);
    assert Serialize(p) == Header(p, crc) + (p.lacing + p.body);
  }

  lemma SerializedMatches(p: Page)
    ensures ChecksumMatches(Serialize(p))
  {
    hide Checksum, FromBytes32, ZeroField, PageChecksum, Bytes32, Serialize;
    SerializedFieldZero(p);
    ChecksumIs(p);
    Bytes32Round(PageChecksum(p));
    SerializedField(p);
  }

  lemma ReadFields(s: seq<Byte>, p: Page, tail: seq<Byte>)
    requires WellFormed(p) && Fields(s, p) && ChecksumMatches(s)
    ensures ReadPage(s + tail) == Ok(p)
  {
    hide FromLE, Value, ChecksumMatches, Capacity;
    var rest := s + tail;
    assert rest[..4] == s[..4];
    assert rest[..|s|] == s;
    assert rest[HEADER..HEADER + |p.lacing|] == p.lacing by {
      assert rest[HEADER..] == p.lacing + p.body + tail;
    }
    assert s[HEADER..HEADER + |p.lacing|] == p.lacing && s[HEADER + |p.lacing|..] == p.body;
    assert PageOf(s, |p.lacing|) == p;
  }

  lemma ReadSerialized(p: Page, tail: seq<Byte>)
    requires WellFormed(p)
    ensures ReadPage(Serialize(p) + tail) == Ok(p)
  {
    hide Serialize, ReadPage, Fields, ChecksumMatches;
    SerializedFields(p);
    SerializedMatches(p);
    ReadFields(Serialize(p), p, tail);
  }

  lemma ChecksumIs(p: Page)
    ensures PageChecksum(p) == Checksum(Header(p, [0, 0, 0, 0]) + p.lacing + p.body)
  {
  }

  // A page in front of its parts.
  lemma PageParts(page: seq<Byte>, p: Page)
    requires |page| >= HEADER && page[..4] == CAPTURE && page[4] == 0 && page[5] == p.flags
    requires page[6..14] == LE(p.granule, 8) && page[14..18] == LE(p.serial, 4) && page[18..22] == LE(p.sequence, 4)
    requires page[26] == Low(|p.lacing|) && page[HEADER..] == p.lacing + p.body
    ensures page == Header(p, page[22..26]) + p.lacing + p.body
  {
    hide LE, Low;
    assert page == page[..4] + [page[4], page[5]] + page[6..14] + page[14..18] + page[18..22] + page[22..26]
           + [page[26]] + page[HEADER..];
  }

  lemma ReadParts(rest: seq<Byte>)
    requires ReadPage(rest).Ok?
    ensures var p := ReadPage(rest).value;
            && WellFormed(p) && HEADER <= Size(p) <= |rest|
            && var page := rest[..Size(p)];
               && page[..4] == CAPTURE && page[4] == 0 && page[5] == p.flags
               && page[6..14] == LE(p.granule, 8) && page[14..18] == LE(p.serial, 4)
                  && page[18..22] == LE(p.sequence, 4)
               && page[26] == Low(|p.lacing|) && page[HEADER..] == p.lacing + p.body && ChecksumMatches(page)
  {
    hide LE, Low, FromLE, ChecksumMatches, Capacity, Value;
    var p := ReadPage(rest).value;
    var page := rest[..Size(p)];
    assert p.lacing == rest[HEADER..HEADER + Value(rest[26])];
    EncodeDecoded(page[6..14]);
    EncodeDecoded(page[14..18]);
    EncodeDecoded(page[18..22]);
    ValueLow(page[26]);
  }

  // Whatever is read is the front of the file, exactly as that page is written.
  lemma ReadIsSerialized(rest: seq<Byte>)
    requires ReadPage(rest).Ok?
    ensures var p := ReadPage(rest).value;
            WellFormed(p) && Size(p) <= |rest| && rest[..Size(p)] == Serialize(p)
  {
    hide LE, Low, PageChecksum, Bytes32, FromBytes32, Checksum, Capacity, ZeroField, Value, ReadPage, Header,
         WellFormed;
    ReadParts(rest);
    var p := ReadPage(rest).value;
    var page := rest[..Size(p)];
    var crc := page[22..26];
    PageParts(page, p);
    ZeroFieldOf(p, crc);
    ChecksumIs(p);
    Bytes32Injective(crc);
  }

  lemma ZeroFieldOf(p: Page, crc: seq<Byte>)
    requires |crc| == 4
    ensures ZeroField(Header(p, crc) + p.lacing + p.body) == Header(p, [0, 0, 0, 0]) + p.lacing + p.body
  {
    hide LE, Low;
    var z := Header(p, [0, 0, 0, 0]) + p.lacing + p.body;
    var s := Header(p, crc) + p.lacing + p.body;
    HeaderFields(p, crc, p.lacing + p.body);
    HeaderFields(p, [0, 0, 0, 0], p.lacing + p.body);
    assert s == Header(p, crc) + (p.lacing + p.body) && z == Header(p, [0, 0, 0, 0]) + (p.lacing + p.body);
    assert s[26..] == [s[26]] + s[HEADER..] && z[26..] == [z[26]] + z[HEADER..];
    assert z == z[..22] + z[22..26] + z[26..];
  }
}
