// Which files the validator accepts: exactly the legal paginations of four or more
// packets, of which the first three are valid Vorbis headers.
module OggTheorems {
  import opened Bytes
  import opened OggCrc
  import opened OggPages
  import opened OggStream

  // ----- Lacing (RFC 3533, section 5) ------------------------------------------------------

  function Fulls(n: nat): (s: seq<Byte>)
    ensures |s| == n
  {
    if n == 0 then [] else [FULL] + Fulls(n - 1)
  }

  // As many full segments as fit, then one that is not full, even if empty.
  function Lace(packet: seq<Byte>): seq<Byte> {
    Fulls(|packet| / 255) + [Low(|packet| % 255)]
  }

  function LaceAll(packets: seq<seq<Byte>>): seq<Byte> {
    if packets == [] then [] else Lace(packets[0]) + LaceAll(packets[1..])
  }

  // ----- Pages put together ------------------------------------------------------------------

  function Lacings(pages: seq<Page>): seq<Byte> {
    if pages == [] then [] else Lacings(pages[..|pages| - 1]) + pages[|pages| - 1].lacing
  }

  function Bodies(pages: seq<Page>): seq<Byte> {
    if pages == [] then [] else Bodies(pages[..|pages| - 1]) + pages[|pages| - 1].body
  }

  function Encode(pages: seq<Page>): seq<Byte> {
    if pages == [] then [] else Serialize(pages[0]) + Encode(pages[1..])
  }

  // A lacing stream that stops inside a packet.
  predicate MidPacket(lacing: seq<Byte>) {
    lacing != [] && lacing[|lacing| - 1] == FULL
  }

  predicate HeaderOk(index: nat, packet: seq<Byte>) {
    CheckHeader(index, packet).Ok?
  }

  ghost predicate LegalPage(pages: seq<Page>, i: nat)
    requires i < |pages|
  {
    var p := pages[i];
    && WellFormed(p)
    && p.sequence == i && p.serial == pages[0].serial
    && (Bos(p) <==> i == 0) && (Eos(p) <==> i == |pages| - 1)
    && (Continued(p) <==> MidPacket(Lacings(pages[..i])))
  }

  ghost predicate GranulesRise(pages: seq<Page>) {
    && (forall i, j :: 0 <= i < j < |pages| && pages[i].granule != NO_GRANULE && pages[j].granule != NO_GRANULE
          ==> pages[i].granule <= pages[j].granule)
    && (exists i :: 0 <= i < |pages| && pages[i].granule != NO_GRANULE && pages[i].granule > 0)
  }

  // The pages lace the packets and carry their bytes, all of them and nothing else,
  // wherever the page boundaries fall.
  ghost predicate Legal(pages: seq<Page>, packets: seq<seq<Byte>>) {
    && 1 <= |pages| < PAGE_LIMIT
    && (forall i :: 0 <= i < |pages| ==> LegalPage(pages, i))
    && Lacings(pages) == LaceAll(packets) && Bodies(pages) == Flatten(packets)
    && |packets| >= 4 && (forall i :: 0 <= i < |packets| ==> |packets[i]| <= MAX_PACKET)
    && HeaderOk(0, packets[0]) && HeaderOk(1, packets[1]) && HeaderOk(2, packets[2])
    && GranulesRise(pages)
  }

  // ----- Splitting a lacing stream ---------------------------------------------------------------

  datatype Parts = Parts(packets: seq<seq<Byte>>, rest: seq<Byte>)

  ghost function Split(pending: seq<Byte>, lacing: seq<Byte>, body: seq<Byte>): Parts
    requires |body| == Total(lacing)
    decreases |lacing|
  {
    if lacing == [] then Parts([], pending)
    else
      var n := Value(lacing[0]);
      var grown := pending + body[..n];
      if n < 255 then
        var more := Split([], lacing[1..], body[n..]);
        Parts([grown] + more.packets, more.rest)
      else Split(grown, lacing[1..], body[n..])
  }

  lemma {:induction false} TotalAppend(a: seq<Byte>, b: seq<Byte>)
    ensures Total(a + b) == Total(a) + Total(b)
    decreases |a|
  {
    if a == [] {
      assert a + b == b;
    } else {
      assert (a + b)[0] == a[0] && (a + b)[1..] == a[1..] + b;
      TotalAppend(a[1..], b);
    }
  }

  lemma {:induction false} SplitAppend(pending: seq<Byte>, l1: seq<Byte>, b1: seq<Byte>, l2: seq<Byte>, b2: seq<Byte>)
    requires |b1| == Total(l1) && |b2| == Total(l2)
    ensures Total(l1 + l2) == |b1 + b2|
    ensures var first := Split(pending, l1, b1);
            var second := Split(first.rest, l2, b2);
            Split(pending, l1 + l2, b1 + b2) == Parts(first.packets + second.packets, second.rest)
    decreases |l1|
  {
    hide Value;
    TotalAppend(l1, l2);
    if l1 == [] {
      assert l1 + l2 == l2 && b1 + b2 == b2;
    } else {
      var n := Value(l1[0]);
      assert (l1 + l2)[0] == l1[0] && (l1 + l2)[1..] == l1[1..] + l2;
      assert (b1 + b2)[..n] == b1[..n] && (b1 + b2)[n..] == b1[n..] + b2;
      var grown := pending + b1[..n];
      if n < 255 {
        SplitAppend([], l1[1..], b1[n..], l2, b2);
        var first := Split([], l1[1..], b1[n..]);
        var second := Split(first.rest, l2, b2);
        assert [grown] + (first.packets + second.packets) == ([grown] + first.packets) + second.packets;
      } else {
        SplitAppend(grown, l1[1..], b1[n..], l2, b2);
      }
    }
  }

  lemma FullValue()
    ensures Value(FULL) == 255
  {
  }

  lemma {:induction false} FullsAppend(n: nat)
    ensures Fulls(n) + [FULL] == Fulls(n + 1)
  {
    if n > 0 {
      FullsAppend(n - 1);
      assert Fulls(n) + [FULL] == [FULL] + (Fulls(n - 1) + [FULL]);
    }
  }

  lemma ConsLaced(packet: seq<Byte>, packets: seq<seq<Byte>>)
    ensures LaceAll([packet] + packets) == Lace(packet) + LaceAll(packets)
    ensures Flatten([packet] + packets) == packet + Flatten(packets)
  {
    assert ([packet] + packets)[1..] == packets;
  }

  lemma LastSegment(pending: seq<Byte>, chunk: seq<Byte>, b: Byte)
    requires |pending| % 255 == 0 && |chunk| == Value(b) < 255
    ensures Lace(pending + chunk) == Fulls(|pending| / 255) + [b]
  {
    hide Value, Low, Fulls;
    assert |pending + chunk| / 255 == |pending| / 255 && |pending + chunk| % 255 == |chunk|;
    ValueLow(b);
  }

  // What was split is what was laced, byte for byte.
  ghost predicate Laced(pending: seq<Byte>, lacing: seq<Byte>, body: seq<Byte>, s: Parts) {
    && |pending| % 255 == 0 && |s.rest| % 255 == 0
    && Fulls(|pending| / 255) + lacing == LaceAll(s.packets) + Fulls(|s.rest| / 255)
    && pending + body == Flatten(s.packets) + s.rest
  }

  lemma PacketEnds(pending: seq<Byte>, b: Byte, chunk: seq<Byte>, lacing: seq<Byte>, body: seq<Byte>, more: Parts)
    requires |pending| % 255 == 0 && |chunk| == Value(b) < 255 && Laced([], lacing, body, more)
    ensures Laced(pending, [b] + lacing, chunk + body, Parts([pending + chunk] + more.packets, more.rest))
  {
    hide Value, Lace, LaceAll, Flatten;
    var k, grown := |pending| / 255, pending + chunk;
    LastSegment(pending, chunk, b);
    ConsLaced(grown, more.packets);
    assert lacing == LaceAll(more.packets) + Fulls(|more.rest| / 255) && body == Flatten(more.packets) + more.rest;
    assert Fulls(k) + ([b] + lacing) == Lace(grown) + LaceAll(more.packets) + Fulls(|more.rest| / 255);
    assert pending + (chunk + body) == grown + Flatten(more.packets) + more.rest;
  }

  lemma PacketGoesOn(pending: seq<Byte>, chunk: seq<Byte>, lacing: seq<Byte>, body: seq<Byte>, s: Parts)
    requires |pending| % 255 == 0 && |chunk| == 255 && Laced(pending + chunk, lacing, body, s)
    ensures Laced(pending, [FULL] + lacing, chunk + body, s)
  {
    hide Fulls, LaceAll, Flatten;
    var k := |pending| / 255;
    FullsAppend(k);
    assert |pending + chunk| / 255 == k + 1;
    assert Fulls(k) + ([FULL] + lacing) == (Fulls(k) + [FULL]) + lacing;
    assert pending + (chunk + body) == (pending + chunk) + body;
  }

  lemma {:induction false} SplitLaces(pending: seq<Byte>, lacing: seq<Byte>, body: seq<Byte>)
    requires |body| == Total(lacing) && |pending| % 255 == 0
    ensures Laced(pending, lacing, body, Split(pending, lacing, body))
    decreases |lacing|
  {
    if lacing == [] {
      assert pending + body == Flatten([]) + pending;
    } else {
      hide Value, Laced;
      var n := Value(lacing[0]);
      assert lacing == [lacing[0]] + lacing[1..] && body == body[..n] + body[n..];
      if n < 255 {
        SplitLaces([], lacing[1..], body[n..]);
        PacketEnds(pending, lacing[0], body[..n], lacing[1..], body[n..], Split([], lacing[1..], body[n..]));
      } else {
        FullValue();
        ValueInjective(lacing[0], FULL);
        SplitLaces(pending + body[..n], lacing[1..], body[n..]);
        PacketGoesOn(pending, body[..n], lacing[1..], body[n..], Split(pending, lacing, body));
      }
    }
  }

  lemma {:induction false} SplitOneLaced(pending: seq<Byte>, packet: seq<Byte>, fulls: nat)
    requires |packet| / 255 == fulls
    ensures Total(Lace(packet)) == |packet|
    ensures Split(pending, Lace(packet), packet) == Parts([pending + packet], [])
    decreases fulls
  {
    hide Value, Low;
    FullValue();
    LowValue(|packet| % 255);
    if fulls == 0 {
      assert Lace(packet) == [Low(|packet|)] && Lace(packet)[1..] == [];
      assert packet[..|packet|] == packet && packet[|packet|..] == [];
    } else {
      var shorter := packet[255..];
      assert Lace(packet) == [FULL] + Lace(shorter);
      assert Lace(packet)[1..] == Lace(shorter);
      SplitOneLaced(pending + packet[..255], shorter, fulls - 1);
      assert pending + packet[..255] + shorter == pending + packet;
    }
  }

  lemma {:induction false} SplitLaced(packets: seq<seq<Byte>>)
    ensures Total(LaceAll(packets)) == |Flatten(packets)|
    ensures Split([], LaceAll(packets), Flatten(packets)) == Parts(packets, [])
    decreases |packets|
  {
    hide Lace;
    if packets != [] {
      SplitOneLaced([], packets[0], |packets[0]| / 255);
      SplitLaced(packets[1..]);
      SplitAppend([], Lace(packets[0]), packets[0], LaceAll(packets[1..]), Flatten(packets[1..]));
      assert [] + packets[0] == packets[0];
      assert packets == [packets[0]] + packets[1..];
    }
  }

  // Something is left over exactly when the last segment is full.
  lemma {:induction false} RestIsMid(pending: seq<Byte>, lacing: seq<Byte>, body: seq<Byte>)
    requires |body| == Total(lacing)
    ensures lacing != [] ==> (Split(pending, lacing, body).rest != [] <==> MidPacket(lacing))
    decreases |lacing|
  {
    hide Value;
    if lacing != [] {
      var n := Value(lacing[0]);
      FullValue();
      ValueInjective(lacing[0], FULL);
      RestIsMid(if n < 255 then [] else pending + body[..n], lacing[1..], body[n..]);
    }
  }

  // ----- The segment loop accepts exactly fine packets ----------------------------------------------

  ghost predicate PacketsFine(from: nat, s: Parts) {
    && |s.rest| <= MAX_PACKET
    && (forall i :: 0 <= i < |s.packets| ==> |s.packets[i]| <= MAX_PACKET)
    && (forall i :: 0 <= i < |s.packets| && from + i < 3 ==> HeaderOk(from + i, s.packets[i]))
  }

  function HeaderShape(packet: seq<Byte>): Shape {
    match CheckHeader(0, packet)
    case Ok(shape) => shape
    case Err(_) => UNKNOWN
  }

  ghost function Assembled(a: Assembly, s: Parts): Assembly {
    Assembly(a.count + |s.packets|, s.rest, if a.count == 0 && s.packets != [] then
             HeaderShape(s.packets[0]) else a.shape)
  }

  // A packet being assembled is never longer than what it becomes.
  lemma {:induction false} SplitKeeps(pending: seq<Byte>, lacing: seq<Byte>, body: seq<Byte>)
    requires |body| == Total(lacing) && |pending| > MAX_PACKET
    ensures !PacketsFine(0, Split(pending, lacing, body)) && forall from ::
              !PacketsFine(from, Split(pending, lacing, body))
    decreases |lacing|
  {
    hide Value, HeaderOk;
    if lacing != [] {
      var n := Value(lacing[0]);
      var grown := pending + body[..n];
      if n < 255 {
        assert Split(pending, lacing, body).packets[0] == grown;
      } else {
        SplitKeeps(grown, lacing[1..], body[n..]);
      }
    }
  }

  lemma FineCons(from: nat, packet: seq<Byte>, more: Parts)
    ensures PacketsFine(from, Parts([packet] + more.packets, more.rest))
            <==> |packet| <= MAX_PACKET && (from < 3 ==> HeaderOk(from, packet)) && PacketsFine(from + 1, more)
  {
    hide HeaderOk;
    var s := Parts([packet] + more.packets, more.rest);
    assert s.packets[0] == packet;
    assert forall i :: 0 <= i < |more.packets| ==> s.packets[i + 1] == more.packets[i];
    if PacketsFine(from, s) {
      forall i | 0 <= i < |more.packets|
        ensures |more.packets[i]| <= MAX_PACKET && (from + 1 + i < 3 ==> HeaderOk(from + 1 + i, more.packets[i]))
      {
        assert s.packets[i + 1] == more.packets[i];
      }
    }
  }

  lemma {:induction false} SegmentsFine(a: Assembly, lacing: seq<Byte>, body: seq<Byte>)
    requires |body| == Total(lacing) && |a.pending| <= MAX_PACKET
    ensures Segments(a, lacing, body).Ok? <==> PacketsFine(a.count, Split(a.pending, lacing, body))
    ensures Segments(a, lacing, body).Ok? ==>
              Segments(a, lacing, body).value == Assembled(a, Split(a.pending, lacing, body))
    decreases |lacing|
  {
    hide Value, CheckHeader, PacketsFine;
    if lacing == [] {
      NothingSplit(a);
    } else {
      var n := Value(lacing[0]);
      var grown := a.pending + body[..n];
      if |grown| > MAX_PACKET {
        if n < 255 {
          FineCons(a.count, grown, Split([], lacing[1..], body[n..]));
        } else {
          SplitKeeps(grown, lacing[1..], body[n..]);
        }
      } else if n < 255 {
        var more := Split([], lacing[1..], body[n..]);
        FineCons(a.count, grown, more);
        if a.count >= 3 || HeaderOk(a.count, grown) {
          var next := Segment(a, body[..n], true).value;
          SegmentsFine(next, lacing[1..], body[n..]);
        }
      } else {
        SegmentsFine(a.(pending := grown), lacing[1..], body[n..]);
      }
    }
  }

  lemma NothingSplit(a: Assembly)
    requires |a.pending| <= MAX_PACKET
    ensures PacketsFine(a.count, Parts([], a.pending)) && Assembled(a, Parts([], a.pending)) == a
  {
  }

  // ----- What has been read so far ---------------------------------------------------------------------

  lemma {:induction false} BodiesFill(pages: seq<Page>)
    requires forall i :: 0 <= i < |pages| ==> WellFormed(pages[i])
    ensures |Bodies(pages)| == Total(Lacings(pages))
    decreases |pages|
  {
    hide Capacity;
    if pages != [] {
      BodiesFill(pages[..|pages| - 1]);
      TotalAppend(Lacings(pages[..|pages| - 1]), pages[|pages| - 1].lacing);
    }
  }

  ghost predicate AllWellFormed(pages: seq<Page>) {
    forall i :: 0 <= i < |pages| ==> WellFormed(pages[i])
  }

  ghost function PartsOf(pages: seq<Page>): Parts
    requires AllWellFormed(pages)
  {
    BodiesFill(pages);
    Split([], Lacings(pages), Bodies(pages))
  }

  function LastGranule(pages: seq<Page>): nat {
    if pages == [] then 0
    else if pages[|pages| - 1].granule != NO_GRANULE then pages[|pages| - 1].granule
    else LastGranule(pages[..|pages| - 1])
  }

  ghost predicate Ended(pages: seq<Page>) {
    pages != [] && Eos(pages[|pages| - 1])
  }

  ghost function StateOf(pages: seq<Page>): State
    requires AllWellFormed(pages)
  {
    State(|pages|, |pages| % PAGE_LIMIT, if pages == [] then 0 else pages[0].serial, Ended(pages), LastGranule(pages),
          Assembled(Assembly(0, [], UNKNOWN), PartsOf(pages)))
  }

  // One page, given those before it.
  ghost predicate FinePage(before: seq<Page>, p: Page)
    requires AllWellFormed(before)
  {
    && p.sequence == |before| && (before != [] ==> p.serial == before[0].serial)
    && (Bos(p) <==> before == []) && !Ended(before)
    && (Continued(p) <==> PartsOf(before).rest != [])
    && (p.granule != NO_GRANULE ==> LastGranule(before) <= p.granule)
  }

  ghost predicate Fine(pages: seq<Page>) {
    && AllWellFormed(pages)
    && |pages| < PAGE_LIMIT
    && (forall i :: 0 <= i < |pages| ==> FinePage(pages[..i], pages[i]))
    && PacketsFine(0, PartsOf(pages))
    && (forall i :: 0 <= i < |pages| && Eos(pages[i]) ==> PartsOf(pages[..i + 1]).rest == [])
  }

  lemma PartsGrow(pages: seq<Page>, p: Page)
    requires AllWellFormed(pages) && WellFormed(p)
    ensures AllWellFormed(pages + [p])
    ensures var before := PartsOf(pages);
            var more := Split(before.rest, p.lacing, p.body);
            PartsOf(pages + [p]) == Parts(before.packets + more.packets, more.rest)
  {
    hide WellFormed;
    assert (pages + [p])[..|pages|] == pages;
    WellFormedBody(p);
    BodiesFill(pages);
    SplitAppend([], Lacings(pages), Bodies(pages), p.lacing, p.body);
  }

  lemma WellFormedBody(p: Page)
    requires WellFormed(p)
    ensures |p.body| == Total(p.lacing)
  {
  }

  lemma FineTail(s: Parts, more: Parts)
    ensures PacketsFine(0, Parts(s.packets + more.packets, more.rest)) ==> PacketsFine(|s.packets|, more)
  {
    hide HeaderOk;
    var all := s.packets + more.packets;
    if PacketsFine(0, Parts(all, more.rest)) {
      forall i | 0 <= i < |more.packets|
        ensures |more.packets[i]| <= MAX_PACKET && (|s.packets| + i < 3 ==> HeaderOk(|s.packets| + i, more.packets[i]))
      {
        assert all[|s.packets| + i] == more.packets[i];
      }
    }
  }

  // Fine packets stay fine as more are added, and only then.
  lemma FineGrows(s: Parts, more: Parts)
    requires PacketsFine(0, s)
    ensures PacketsFine(0, Parts(s.packets + more.packets, more.rest)) <==> PacketsFine(|s.packets|, more)
  {
    hide HeaderOk;
    FineTail(s, more);
  }

  lemma FineExtends(pages: seq<Page>, p: Page)
    requires Fine(pages) && WellFormed(p) && AllWellFormed(pages + [p])
    ensures Fine(pages + [p]) <==>
              && |pages| + 1 < PAGE_LIMIT && FinePage(pages, p) && PacketsFine(0, PartsOf(pages + [p]))
              && (Eos(p) ==> PartsOf(pages + [p]).rest == [])
  {
    hide FinePage, PacketsFine, PartsOf, WellFormed;
    var all := pages + [p];
    assert all[..|pages|] == pages && all[..|pages| + 1] == all && all[|pages|] == p;
    assert forall i :: 0 <= i <= |pages| ==> all[..i] == pages[..i];
    assert forall i :: 0 <= i < |pages| ==> all[i] == pages[i];
  }

  lemma StepState(pages: seq<Page>, p: Page, assembly: Assembly)
    requires AllWellFormed(pages) && WellFormed(p) && AllWellFormed(pages + [p]) && |pages| + 1 < PAGE_LIMIT
    requires pages != [] ==> p.serial == pages[0].serial
    requires assembly == Assembled(Assembly(0, [], UNKNOWN), PartsOf(pages + [p]))
    ensures StateOf(pages + [p]) == State(|pages| + 1, (|pages| + 1) % PAGE_LIMIT, p.serial, Eos(p),
                                          if p.granule != NO_GRANULE then p.granule else LastGranule(pages), assembly)
  {
    hide PartsOf, Assembled, WellFormed;
    assert (pages + [p])[..|pages|] == pages;
  }

  // The segment loop on the next page, in terms of all packets so far.
  lemma StepSegments(pages: seq<Page>, p: Page)
    requires Fine(pages) && WellFormed(p)
    ensures |p.body| == Total(p.lacing) && AllWellFormed(pages + [p])
    ensures var r := Segments(StateOf(pages).assembly, p.lacing, p.body);
            && (r.Ok? <==> PacketsFine(0, PartsOf(pages + [p])))
            && (r.Ok? ==>
                r.value == Assembled(Assembly(0, [], UNKNOWN), PartsOf(pages + [p]))
                    && r.value.pending == PartsOf(pages + [p]).rest)
  {
    WellFormedBody(p);
    PartsGrow(pages, p);
    FineRest(pages);
    hide Fine, PartsOf, PacketsFine, WellFormed, Segments, HeaderShape;
    var before := PartsOf(pages);
    var more := Split(before.rest, p.lacing, p.body);
    SegmentsFine(StateOf(pages).assembly, p.lacing, p.body);
    FineGrows(before, more);
    AssembledGrows(before, more);
  }

  // A page is accepted after fine pages exactly when the pages are still fine with it.
  lemma StepAccepts(pages: seq<Page>, p: Page)
    requires Fine(pages) && WellFormed(p) && !Ended(pages)
    requires |p.body| == Total(p.lacing) && AllWellFormed(pages + [p])
    ensures Step(StateOf(pages), p).Ok? <==> Fine(pages + [p])
  {
    hide Fine, PartsOf, PacketsFine, WellFormed, AllWellFormed, Bos, Eos, Continued, Segments, HeaderShape,
         LastGranule, Split;
    FineIsWellFormed(pages);
    FineExtends(pages, p);
    StepSegments(pages, p);
    FineRest(pages);
    NoParts();
    var assembly := StateOf(pages).assembly;
    assert assembly.pending == PartsOf(pages).rest;
    if Fine(pages + [p]) {
      assert Segments(assembly, p.lacing, p.body).Ok?;
    }
  }

  lemma StepFine(pages: seq<Page>, p: Page)
    requires Fine(pages) && WellFormed(p) && !Ended(pages)
    ensures |p.body| == Total(p.lacing) && AllWellFormed(pages + [p])
    ensures Step(StateOf(pages), p).Ok? <==> Fine(pages + [p])
    ensures Step(StateOf(pages), p).Ok? ==> Step(StateOf(pages), p).value == StateOf(pages + [p])
  {
    hide Fine, PartsOf, PacketsFine, WellFormed, AllWellFormed, Bos, Eos, Continued, Segments, HeaderShape,
         LastGranule, Split;
    FineIsWellFormed(pages);
    StepSegments(pages, p);
    StepAccepts(pages, p);
    FineRest(pages);
    if Step(StateOf(pages), p).Ok? {
      StepState(pages, p, Step(StateOf(pages), p).value.assembly);
    }
  }

  lemma FineRest(pages: seq<Page>)
    requires Fine(pages)
    ensures |PartsOf(pages).rest| <= MAX_PACKET && PacketsFine(0, PartsOf(pages)) && |pages| < PAGE_LIMIT
  {
  }

  lemma NoParts()
    ensures PartsOf([]) == Parts([], [])
  {
  }

  lemma AssembledGrows(s: Parts, more: Parts)
    ensures Assembled(Assembled(Assembly(0, [], UNKNOWN), s), more)
            == Assembled(Assembly(0, [], UNKNOWN), Parts(s.packets + more.packets, more.rest))
  {
    hide HeaderShape;
    if s.packets != [] {
      assert (s.packets + more.packets)[0] == s.packets[0];
    } else {
      assert s.packets + more.packets == more.packets;
    }
  }

  // ----- Whole files ------------------------------------------------------------------------------------

  // The page checks alone, over pages already read.
  function Follow(st: State, pages: seq<Page>): Result<State>
    requires forall i :: 0 <= i < |pages| ==> |pages[i].body| == Total(pages[i].lacing)
    decreases |pages|
  {
    if pages == [] then Ok(st)
    else if st.eos then Err(AfterEos)
    else
      match Step(st, pages[0])
      case Err(e) => Err(e)
      case Ok(next) => Follow(next, pages[1..])
  }

  lemma FineShrinks(s: Parts, lacing: seq<Byte>, body: seq<Byte>)
    requires |body| == Total(lacing)
    requires var more := Split(s.rest, lacing, body); PacketsFine(0, Parts(s.packets + more.packets, more.rest))
    ensures PacketsFine(0, s)
  {
    hide HeaderOk, Split;
    var more := Split(s.rest, lacing, body);
    var all := s.packets + more.packets;
    assert forall i :: 0 <= i < |s.packets| ==> all[i] == s.packets[i];
    FineTail(s, more);
    if |s.rest| > MAX_PACKET {
      SplitKeeps(s.rest, lacing, body);
    }
  }

  lemma FinePrefix(pages: seq<Page>, n: nat)
    requires Fine(pages) && n <= |pages|
    ensures Fine(pages[..n])
    decreases |pages| - n
  {
    hide FinePage, PacketsFine, WellFormed;
    if n < |pages| {
      var shorter := pages[..|pages| - 1];
      var p := pages[|pages| - 1];
      assert pages == shorter + [p];
      assert forall i :: 0 <= i <= |shorter| ==> shorter[..i] == pages[..i];
      assert forall i :: 0 <= i < |shorter| ==> shorter[i] == pages[i];
      PartsGrow(shorter, p);
      WellFormedBody(p);
      FineShrinks(PartsOf(shorter), p.lacing, p.body);
      FinePrefix(shorter, n);
      assert shorter[..n] == pages[..n];
    } else {
      assert pages[..n] == pages;
    }
  }

  lemma {:induction false} FollowFine(before: seq<Page>, pages: seq<Page>)
    requires Fine(before) && AllWellFormed(pages)
    requires forall i :: 0 <= i < |pages| ==> |pages[i].body| == Total(pages[i].lacing)
    ensures AllWellFormed(before + pages)
    ensures Follow(StateOf(before), pages).Ok? <==> Fine(before + pages)
    ensures Fine(before + pages) ==> Follow(StateOf(before), pages).value == StateOf(before + pages)
    decreases |pages|
  {
    hide Fine, FinePage, WellFormed, StateOf, Step;
    FineIsWellFormed(before);
    if pages == [] {
      assert before + pages == before;
    } else {
      var p := pages[0];
      assert before + pages == before + [p] + pages[1..];
      assert (before + pages)[..|before| + 1] == before + [p];
      EosOfState(before);
      if Fine(before + pages) {
        FinePrefix(before + pages, |before| + 1);
      }
      if Ended(before) {
        EndedStops(before, p);
      } else {
        StepFine(before, p);
        if Fine(before + [p]) {
          FollowFine(before + [p], pages[1..]);
        }
      }
    }
  }

  lemma FineIsWellFormed(pages: seq<Page>)
    requires Fine(pages)
    ensures AllWellFormed(pages)
  {
  }

  lemma EosOfState(pages: seq<Page>)
    requires AllWellFormed(pages)
    ensures StateOf(pages).eos == Ended(pages)
  {
  }

  lemma EndedStops(before: seq<Page>, p: Page)
    requires AllWellFormed(before) && Ended(before)
    ensures !Fine(before + [p])
  {
    hide PacketsFine, WellFormed, PartsOf;
    var all := before + [p];
    assert all[..|before|] == before && all[|before|] == p;
    assert Fine(all) ==> FinePage(all[..|before|], all[|before|]);
  }

  lemma StartIsNothing()
    ensures Fine([]) && StateOf([]) == START
  {
    NoParts();
    assert Assembled(Assembly(0, [], UNKNOWN), Parts([], [])) == Assembly(0, [], UNKNOWN);
  }

  // Driving the encoding of well-formed pages is following the pages.
  lemma {:induction false} DriveFollows(pages: seq<Page>, st: State, size: nat)
    requires AllWellFormed(pages) && forall i :: 0 <= i < |pages| ==> |pages[i].body| == Total(pages[i].lacing)
    ensures Drive(Encode(pages), st, size) == match Follow(st, pages) case Ok(last) =>
              Finish(last, size) case Err(e) => Err(e)
    decreases |pages|
  {
    hide ReadPage, Serialize, WellFormed, Step, Finish;
    if pages != [] {
      var p, tail := pages[0], Encode(pages[1..]);
      ReadSerialized(p, tail);
      assert Encode(pages) == Serialize(p) + tail && |Serialize(p)| == Size(p) >= HEADER;
      assert Encode(pages)[Size(p)..] == tail;
      if !st.eos && Step(st, p).Ok? {
        DriveFollows(pages[1..], Step(st, p).value, size);
      }
    }
  }

  // And whatever the driver gets through is the encoding of well-formed pages.
  ghost function PagesIn(rest: seq<Byte>): (pages: seq<Page>)
    decreases |rest|
  {
    if rest == [] || ReadPage(rest).Err? then []
    else
      var p := ReadPage(rest).value;
      [p] + PagesIn(rest[Size(p)..])
  }

  lemma {:induction false} DriveReadsPages(rest: seq<Byte>, st: State, size: nat)
    requires Drive(rest, st, size).Ok?
    ensures AllWellFormed(PagesIn(rest)) && Encode(PagesIn(rest)) == rest
    decreases |rest|
  {
    hide ReadPage, Serialize, WellFormed, Step, Finish;
    if rest != [] {
      ReadIsSerialized(rest);
      var p := ReadPage(rest).value;
      WellFormedBody(p);
      DriveReadsPages(rest[Size(p)..], Step(st, p).value, size);
      var pages := PagesIn(rest);
      assert pages[0] == p && pages[1..] == PagesIn(rest[Size(p)..]);
      assert rest == rest[..Size(p)] + rest[Size(p)..];
    }
  }

  lemma {:induction false} EncodingLength(pages: seq<Page>)
    ensures |Encode(pages)| >= HEADER * |pages|
    decreases |pages|
  {
    hide Serialize;
    if pages != [] {
      EncodingLength(pages[1..]);
    }
  }

  // Accepted exactly when the file is the encoding of fine pages that finish the stream.
  lemma AcceptedIsFine(file: seq<Byte>)
    ensures Validated(file).Ok? <==>
              exists pages :: file == Encode(pages) && Fine(pages) && Complete(StateOf(pages))
    ensures forall pages :: file == Encode(pages) && Fine(pages) && Complete(StateOf(pages)) ==>
              Validated(file) == Finish(StateOf(pages), |file|)
  {
    hide FinePage, PacketsFine, PartsOf, WellFormed, StateOf, Complete, Drive, Encode;
    if Validated(file).Ok? {
      DriveReadsPages(file, START, |file|);
      var pages := PagesIn(file);
      BodiesMatch(pages);
      DriveFollows(pages, START, |file|);
      StartIsNothing();
      FollowFine([], pages);
      assert [] + pages == pages;
      assert file == Encode(pages) && Fine(pages) && Complete(StateOf(pages));
    }
    forall pages | file == Encode(pages) && Fine(pages) && Complete(StateOf(pages))
      ensures Validated(file) == Finish(StateOf(pages), |file|)
    {
      FineIsWellFormed(pages);
      CompleteHasPages(pages);
      EncodingLength(pages);
      BodiesMatch(pages);
      DriveFollows(pages, START, |file|);
      StartIsNothing();
      FollowFine([], pages);
      assert [] + pages == pages;
    }
  }

  lemma BodiesMatch(pages: seq<Page>)
    requires AllWellFormed(pages)
    ensures forall i :: 0 <= i < |pages| ==> |pages[i].body| == Total(pages[i].lacing)
  {
  }

  lemma CompleteHasPages(pages: seq<Page>)
    requires AllWellFormed(pages) && Complete(StateOf(pages))
    ensures |pages| >= 1
  {
  }

  // ----- Legal is fine and complete --------------------------------------------------------------------

  ghost predicate Rising(pages: seq<Page>) {
    forall i, j :: 0 <= i < j < |pages| && pages[i].granule != NO_GRANULE && pages[j].granule != NO_GRANULE
      ==> pages[i].granule <= pages[j].granule
  }

  ghost predicate RisingStepwise(pages: seq<Page>) {
    forall i :: 0 <= i < |pages| && pages[i].granule != NO_GRANULE ==> LastGranule(pages[..i]) <= pages[i].granule
  }

  lemma {:induction false} LastGranuleIsOne(pages: seq<Page>)
    ensures LastGranule(pages) != 0 ==>
              exists i :: 0 <= i < |pages| && pages[i].granule != NO_GRANULE && pages[i].granule == LastGranule(pages)
    decreases |pages|
  {
    if pages != [] && pages[|pages| - 1].granule == NO_GRANULE {
      LastGranuleIsOne(pages[..|pages| - 1]);
    }
  }

  // When granules rise step by step, the last one is the largest.
  lemma {:induction false} LastGranuleIsLargest(pages: seq<Page>, k: nat)
    requires RisingStepwise(pages) && k < |pages| && pages[k].granule != NO_GRANULE
    ensures pages[k].granule <= LastGranule(pages)
    decreases |pages|
  {
    var shorter := pages[..|pages| - 1];
    assert forall i :: 0 <= i <= |shorter| ==> shorter[..i] == pages[..i];
    if k < |shorter| {
      LastGranuleIsLargest(shorter, k);
      assert pages[..|shorter|] == shorter;
    }
  }

  lemma RisingIsStepwise(pages: seq<Page>)
    ensures Rising(pages) <==> RisingStepwise(pages)
  {
    if Rising(pages) {
      forall i | 0 <= i < |pages| && pages[i].granule != NO_GRANULE
        ensures LastGranule(pages[..i]) <= pages[i].granule
      {
        LastGranuleIsOne(pages[..i]);
      }
    }
    if RisingStepwise(pages) {
      forall i, j | 0 <= i < j < |pages| && pages[i].granule != NO_GRANULE && pages[j].granule != NO_GRANULE
        ensures pages[i].granule <= pages[j].granule
      {
        var before := pages[..j];
        assert forall k :: 0 <= k <= j ==> before[..k] == pages[..k];
        LastGranuleIsLargest(before, i);
      }
    }
  }

  lemma RestOfPages(pages: seq<Page>)
    requires AllWellFormed(pages)
    ensures PartsOf(pages).rest != [] <==> MidPacket(Lacings(pages))
  {
    hide WellFormed;
    BodiesFill(pages);
    RestIsMid([], Lacings(pages), Bodies(pages));
  }

  lemma LegalParts(pages: seq<Page>, packets: seq<seq<Byte>>)
    requires AllWellFormed(pages) && Lacings(pages) == LaceAll(packets) && Bodies(pages) == Flatten(packets)
    ensures PartsOf(pages) == Parts(packets, [])
  {
    SplitLaced(packets);
  }

  lemma LegalPageIsFine(pages: seq<Page>, i: nat)
    requires AllWellFormed(pages) && i < |pages| && (forall k :: 0 <= k < |pages| ==> LegalPage(pages, k))
             && RisingStepwise(pages)
    ensures FinePage(pages[..i], pages[i])
  {
    hide WellFormed, PartsOf, Lacings, MidPacket, Bos, Eos, Continued;
    var before := pages[..i];
    assert LegalPage(pages, i);
    RestOfPages(before);
    if i > 0 {
      assert LegalPage(pages, i - 1);
      assert before[|before| - 1] == pages[i - 1] && before[0] == pages[0];
    }
  }

  lemma LegalIsFine(pages: seq<Page>, packets: seq<seq<Byte>>)
    requires Legal(pages, packets)
    ensures Fine(pages) && Complete(StateOf(pages)) && PartsOf(pages) == Parts(packets, [])
  {
    hide WellFormed, PartsOf, Lacings, Bodies, LaceAll, Flatten, MidPacket, HeaderOk, FinePage, Bos, Continued,
         Rising, RisingStepwise;
    assert forall i :: 0 <= i < |pages| ==> LegalPage(pages, i);
    forall i | 0 <= i < |pages|
      ensures WellFormed(pages[i])
    {
      assert LegalPage(pages, i);
    }
    LegalParts(pages, packets);
    assert Rising(pages) by {
      RisesPairwise(pages);
    }
    RisingIsStepwise(pages);
    forall i | 0 <= i < |pages|
      ensures FinePage(pages[..i], pages[i])
    {
      LegalPageIsFine(pages, i);
    }
    forall i | 0 <= i < |pages| && Eos(pages[i])
      ensures PartsOf(pages[..i + 1]).rest == []
    {
      assert LegalPage(pages, i);
      assert pages[..i + 1] == pages;
    }
    assert LegalPage(pages, |pages| - 1);
    GranuleReached(pages);
    FirstShape(packets[0]);
  }

  lemma RisesPairwise(pages: seq<Page>)
    requires GranulesRise(pages)
    ensures Rising(pages)
  {
  }

  lemma GranuleReached(pages: seq<Page>)
    requires GranulesRise(pages) && RisingStepwise(pages)
    ensures LastGranule(pages) != 0
  {
    var i :| 0 <= i < |pages| && pages[i].granule != NO_GRANULE && pages[i].granule > 0;
    LastGranuleIsLargest(pages, i);
  }

  lemma FirstShape(packet: seq<Byte>)
    requires HeaderOk(0, packet)
    ensures HeaderShape(packet).channels != 0 && HeaderShape(packet).rate != 0
  {
  }

  lemma FinePageIsLegal(pages: seq<Page>, i: nat)
    requires Fine(pages) && Ended(pages) && i < |pages|
    ensures LegalPage(pages, i)
  {
    hide WellFormed, PartsOf, Lacings, MidPacket, PacketsFine, Bos, Eos, Continued;
    assert FinePage(pages[..i], pages[i]);
    RestOfPages(pages[..i]);
    if i < |pages| - 1 {
      assert FinePage(pages[..i + 1], pages[i + 1]);
      assert pages[..i + 1][i] == pages[i];
    }
    if i > 0 {
      assert pages[..i][0] == pages[0];
    }
  }

  lemma FineGranules(pages: seq<Page>)
    requires Fine(pages) && LastGranule(pages) != 0
    ensures GranulesRise(pages)
  {
    hide WellFormed, PartsOf, PacketsFine, Bos, Eos, Continued;
    assert RisingStepwise(pages) by {
      forall i | 0 <= i < |pages| && pages[i].granule != NO_GRANULE
        ensures LastGranule(pages[..i]) <= pages[i].granule
      {
        assert FinePage(pages[..i], pages[i]);
      }
    }
    RisingIsStepwise(pages);
    LastGranuleIsOne(pages);
  }

  lemma FineIsLegal(pages: seq<Page>)
    requires Fine(pages) && Complete(StateOf(pages))
    ensures Legal(pages, PartsOf(pages).packets)
  {
    hide WellFormed, Lacings, Bodies, LaceAll, Flatten, LegalPage, FinePage, Split, Bos, Eos, Continued, HeaderOk,
         GranulesRise;
    var packets := PartsOf(pages).packets;
    forall i | 0 <= i < |pages|
      ensures LegalPage(pages, i)
    {
      FinePageIsLegal(pages, i);
    }
    FineGranules(pages);
    BodiesFill(pages);
    SplitLaces([], Lacings(pages), Bodies(pages));
    NothingFull();
    assert LaceAll(packets) + [] == LaceAll(packets) && Flatten(packets) + [] == Flatten(packets);
    assert [] + Lacings(pages) == Lacings(pages) && [] + Bodies(pages) == Bodies(pages);
  }

  lemma NothingFull()
    ensures Fulls(0) == []
  {
  }

  // ----- The main results ----------------------------------------------------------------------------------

  // What an accepted file is reported to be.
  function SummaryOf(pages: seq<Page>, packets: seq<seq<Byte>>): Summary
    requires |packets| > 0
  {
    var shape := HeaderShape(packets[0]);
    Summary(|Encode(pages)|, |pages|, |packets|, shape,
            if shape.rate == 0 then 0.0 else LastGranule(pages) as real / shape.rate as real)
  }

  // The validator accepts a file exactly when it is the encoding of a legal pagination
  // of packets, and then reports that pagination.
  lemma AcceptedIsLegal(file: seq<Byte>)
    ensures Validated(file).Ok? <==> exists pages, packets :: file == Encode(pages) && Legal(pages, packets)
    ensures forall pages, packets :: file == Encode(pages) && Legal(pages, packets) ==>
              Validated(file) == Ok(SummaryOf(pages, packets))
  {
    hide FinePage, PacketsFine, WellFormed, Complete, Encode, Legal, StateOf, PartsOf, Validated;
    AcceptedIsFine(file);
    if Validated(file).Ok? {
      var pages :| file == Encode(pages) && Fine(pages) && Complete(StateOf(pages));
      FineIsLegal(pages);
      assert file == Encode(pages) && Legal(pages, PartsOf(pages).packets);
    }
    forall pages, packets | file == Encode(pages) && Legal(pages, packets)
      ensures |packets| > 0 && Validated(file) == Ok(SummaryOf(pages, packets))
    {
      LegalIsFine(pages, packets);
      LegalSummary(pages, packets);
    }
  }

  lemma LegalSummary(pages: seq<Page>, packets: seq<seq<Byte>>)
    requires AllWellFormed(pages) && PartsOf(pages) == Parts(packets, []) && Complete(StateOf(pages))
    ensures |packets| > 0 && Finish(StateOf(pages), |Encode(pages)|) == Ok(SummaryOf(pages, packets))
  {
    hide PartsOf, Encode, HeaderShape;
  }

  // The pagination is read off the file: no two lists of well-formed pages encode alike,
  // and no two lists of packets lace alike.
  lemma {:induction false} EncodingIsUnique(pages: seq<Page>, pages': seq<Page>)
    requires AllWellFormed(pages) && AllWellFormed(pages') && Encode(pages) == Encode(pages')
    ensures pages == pages'
    decreases |pages|
  {
    hide WellFormed, Serialize, ReadPage;
    if pages == [] || pages' == [] {
      EncodingLength(pages);
      EncodingLength(pages');
    } else {
      ReadSerialized(pages[0], Encode(pages[1..]));
      ReadSerialized(pages'[0], Encode(pages'[1..]));
      assert Encode(pages)[Size(pages[0])..] == Encode(pages[1..]);
      assert Encode(pages')[Size(pages'[0])..] == Encode(pages'[1..]);
      EncodingIsUnique(pages[1..], pages'[1..]);
      assert pages == [pages[0]] + pages[1..] && pages' == [pages'[0]] + pages'[1..];
    }
  }

  lemma LacingIsUnique(packets: seq<seq<Byte>>, packets': seq<seq<Byte>>)
    requires LaceAll(packets) == LaceAll(packets') && Flatten(packets) == Flatten(packets')
    ensures packets == packets'
  {
    SplitLaced(packets);
    SplitLaced(packets');
  }

  // ----- Corruption ------------------------------------------------------------------------------------------

  // The bytes of a page, changed somewhere within four consecutive bytes but not in the
  // checksum field.
  ghost predicate Damaged(page: seq<Byte>, damaged: seq<Byte>, at: nat) {
    && HEADER <= |page| == |damaged| && at + 4 <= |page|
    && damaged[..at] == page[..at] && damaged[at + 4..] == page[at + 4..] && damaged != page
    && damaged[22..26] == page[22..26]
  }

  lemma DamageMismatches(p: Page, damaged: seq<Byte>, at: nat)
    requires Damaged(Serialize(p), damaged, at)
    ensures !ChecksumMatches(damaged)
  {
    hide Checksum, FromBytes32, ZeroField, Serialize;
    var page := Serialize(p);
    DamageSurvivesZeroing(page, damaged, at);
    BurstDetected(ZeroField(page), ZeroField(damaged), at);
    SerializedMatches(p);
  }

  lemma DamageSurvivesZeroing(page: seq<Byte>, damaged: seq<Byte>, at: nat)
    requires Damaged(page, damaged, at)
    ensures var z, z' := ZeroField(page), ZeroField(damaged);
            z[..at] == z'[..at] && z[at + 4..] == z'[at + 4..] && z != z'
  {
    var z, z' := ZeroField(page), ZeroField(damaged);
    DamageIsLocal(page, damaged, at);
    assert forall i :: 0 <= i < |page| ==> z[i] == if 22 <= i < 26 then 0 else page[i];
    assert forall i :: 0 <= i < |page| ==> z'[i] == if 22 <= i < 26 then 0 else damaged[i];
    if z == z' {
      SameOutsideField(page, damaged);
    }
  }

  lemma SameOutsideField(page: seq<Byte>, damaged: seq<Byte>)
    requires HEADER <= |page| == |damaged| && damaged[22..26] == page[22..26]
    requires forall i :: 0 <= i < |page| && !(22 <= i < 26) ==> page[i] == damaged[i]
    ensures page == damaged
  {
    assert page == page[..22] + page[22..26] + page[26..];
    assert damaged == damaged[..22] + damaged[22..26] + damaged[26..];
  }

  lemma DamageIsLocal(page: seq<Byte>, damaged: seq<Byte>, at: nat)
    requires Damaged(page, damaged, at)
    ensures forall i :: 0 <= i < |page| && !(at <= i < at + 4) ==> damaged[i] == page[i]
  {
    forall i | 0 <= i < |page| && !(at <= i < at + 4)
      ensures damaged[i] == page[i]
    {
      if i < at {
        assert damaged[..at][i] == page[..at][i];
      } else {
        assert damaged[at + 4..][i - at - 4] == page[at + 4..][i - at - 4];
      }
    }
  }

  // If a page can still be read where the damaged one starts, it is one of another length.
  lemma DamageMovesEnd(p: Page, damaged: seq<Byte>, at: nat, tail: seq<Byte>)
    requires Damaged(Serialize(p), damaged, at)
    ensures ReadPage(damaged + tail).Ok? ==> Size(ReadPage(damaged + tail).value) != |damaged|
  {
    hide ChecksumMatches, Serialize;
    DamageMismatches(p, damaged, at);
    var rest := damaged + tail;
    assert rest[..|damaged|] == damaged;
  }

  lemma DamageUnreadable(p: Page, damaged: seq<Byte>, at: nat, tail: seq<Byte>)
    requires WellFormed(p) && Damaged(Serialize(p), damaged, at)
    requires damaged[26..HEADER + |p.lacing|] == Serialize(p)[26..HEADER + |p.lacing|]
    ensures ReadPage(damaged + tail).Err?
  {
    hide ChecksumMatches, FromLE, Value, Low, Serialize, Header, PageOf, ReadPage;
    DamageMismatches(p, damaged, at);
    SameLacing(p, damaged);
    Unmatched(damaged, tail, |p.lacing|);
  }

  lemma SameLacing(p: Page, damaged: seq<Byte>)
    requires WellFormed(p) && |damaged| == Size(p)
    requires damaged[26..HEADER + |p.lacing|] == Serialize(p)[26..HEADER + |p.lacing|]
    ensures Value(damaged[26]) == |p.lacing| && damaged[HEADER..HEADER + |p.lacing|] == p.lacing
  {
    hide PageChecksum, Bytes32, Value, Low, LE;
    var page, n := Serialize(p), |p.lacing|;
    var crc := Bytes32(PageChecksum(p));
    assert page == Header(p, crc) + (p.lacing + p.body);
    HeaderFields(p, crc, p.lacing + p.body);
    LowValue(n);
    assert damaged[26] == damaged[26..HEADER + n][0] == page[26];
    assert damaged[HEADER..HEADER + n] == damaged[26..HEADER + n][1..];
    assert page[HEADER..HEADER + n] == page[26..HEADER + n][1..];
    assert page[HEADER..HEADER + n] == p.lacing;
  }

  lemma Unmatched(page: seq<Byte>, tail: seq<Byte>, segments: nat)
    requires |page| >= HEADER + segments && Value(page[26]) == segments && !ChecksumMatches(page)
    requires |page| == HEADER + segments + Total(page[HEADER..HEADER + segments])
    ensures ReadPage(page + tail).Err?
  {
    hide ChecksumMatches, FromLE, Value;
    var rest := page + tail;
    assert rest[26] == page[26] && rest[HEADER..HEADER + segments] == page[HEADER..HEADER + segments];
    assert rest[..|page|] == page;
  }

  lemma {:induction false} DriveReaches(before: seq<Page>, tail: seq<Byte>, st: State, size: nat)
    requires AllWellFormed(before) && tail != [] && ReadPage(tail).Err?
    ensures Drive(Encode(before) + tail, st, size).Err?
    decreases |before|
  {
    hide ReadPage, Serialize, WellFormed, Step, Finish;
    if before == [] {
      assert Encode(before) + tail == tail;
    } else {
      var p, more := before[0], Encode(before[1..]) + tail;
      ReadSerialized(p, more);
      WellFormedBody(p);
      var file := Encode(before) + tail;
      assert file == Serialize(p) + more;
      assert |Serialize(p)| == Size(p) >= HEADER && file[Size(p)..] == more;
      if !st.eos && Step(st, p).Ok? {
        DriveReaches(before[1..], tail, Step(st, p).value, size);
      }
    }
  }

  // Whatever surrounds it, a page damaged in up to four consecutive bytes makes the file
  // be rejected, unless the damage has moved the end of the page: then another page, of
  // another length and matching its checksum, starts where the damaged one did.  Damage
  // that leaves the lacing alone is always noticed.
  lemma CorruptionIsRejected(before: seq<Page>, p: Page, damaged: seq<Byte>, at: nat, after: seq<Byte>)
    requires AllWellFormed(before) && WellFormed(p) && Damaged(Serialize(p), damaged, at)
    ensures var read := ReadPage(damaged + after);
            Validated(Encode(before) + damaged + after).Ok? ==> read.Ok? && Size(read.value) != |damaged|
    ensures damaged[26..HEADER + |p.lacing|] == Serialize(p)[26..HEADER + |p.lacing|] ==>
              Validated(Encode(before) + damaged + after).Err?
  {
    hide ReadPage, Drive, Encode, Serialize, WellFormed;
    var file := Encode(before) + damaged + after;
    assert file == Encode(before) + (damaged + after);
    DamageMovesEnd(p, damaged, at, after);
    if damaged[26..HEADER + |p.lacing|] == Serialize(p)[26..HEADER + |p.lacing|] {
      DamageUnreadable(p, damaged, at, after);
    }
    if ReadPage(damaged + after).Err? {
      DriveReaches(before, damaged + after, START, |file|);
    }
  }
}
