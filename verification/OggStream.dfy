// The stream validator: pages must tile the file and form one complete Vorbis stream.
module OggStream {
  import opened Bytes
  import opened OggCrc
  import opened OggPages

  const MAX_PACKET: nat := 1_048_576
  const NO_GRANULE: nat := 0xffff_ffff_ffff_ffff
  const PAGE_LIMIT: nat := 0x1_0000_0000
  const FULL: Byte := 255

  predicate Continued(p: Page) { p.flags & 1 != 0 }

  predicate Bos(p: Page) { p.flags & 2 != 0 }

  predicate Eos(p: Page) { p.flags & 4 != 0 }

  // ----- Vorbis headers (Vorbis I, section 4.2) -----------------------------------------

  const VORBIS: seq<Byte> := [0x76, 0x6f, 0x72, 0x62, 0x69, 0x73]

  datatype Shape = Shape(channels: nat, rate: nat)

  const UNKNOWN: Shape := Shape(0, 0)

  function HeaderType(index: nat): Byte {
    match index
    case 0 => 1
    case 1 => 3
    case _ => 5
  }

  function CheckHeader(index: nat, packet: seq<Byte>): (r: Result<Shape>)
    ensures r.Ok? && index == 0 ==> 1 <= r.value.channels <= 8 && 8_000 <= r.value.rate <= 384_000
  {
    if |packet| < 8 || packet[0] != HeaderType(index) || packet[1..7] != VORBIS then Err(BadSignature)
    else if index == 0 then
      if |packet| < 30 || FromLE(packet[7..11]) != 0 || packet[29] & 1 == 0 then Err(BadIdentification)
      else
        var channels, rate := Value(packet[11]), FromLE(packet[12..16]);
        if !(1 <= channels <= 8) || !(8_000 <= rate <= 384_000) then Err(BadShape) else Ok(Shape(channels, rate))
    else if packet[|packet| - 1] & 1 == 0 then Err(MissingFraming)
    else Ok(UNKNOWN)
  }

  // ----- Packets out of segments ----------------------------------------------------------

  // Complete packets so far, the packet being assembled, and the first header's shape.
  datatype Assembly = Assembly(count: nat, pending: seq<Byte>, shape: Shape)

  function Segment(a: Assembly, chunk: seq<Byte>, ends: bool): Result<Assembly> {
    if |a.pending| + |chunk| > MAX_PACKET then Err(PacketTooLong)
    else if !ends then Ok(a.(pending := a.pending + chunk))
    else if a.count < 3 then
      match CheckHeader(a.count, a.pending + chunk)
      case Err(e) => Err(e)
      case Ok(shape) => Ok(Assembly(a.count + 1, [], if a.count == 0 then shape else a.shape))
    else Ok(Assembly(a.count + 1, [], a.shape))
  }

  function Segments(a: Assembly, lacing: seq<Byte>, body: seq<Byte>): Result<Assembly>
    requires |body| == Total(lacing)
    decreases |lacing|
  {
    if lacing == [] then Ok(a)
    else
      var n := Value(lacing[0]);
      match Segment(a, body[..n], n < 255)
      case Err(e) => Err(e)
      case Ok(next) => Segments(next, lacing[1..], body[n..])
  }

  // ----- Pages out of the file ------------------------------------------------------------

  datatype State = State(pages: nat, expected: nat, serial: nat, eos: bool, granule: nat, assembly: Assembly)

  const START: State := State(0, 0, 0, false, 0, Assembly(0, [], UNKNOWN))

  datatype Summary = Summary(bytes: nat, pages: nat, packets: nat, shape: Shape, duration: real)

  function Step(st: State, p: Page): Result<State>
    requires |p.body| == Total(p.lacing)
  {
    if st.pages == 0 && (!Bos(p) || Continued(p) || p.sequence != 0) then Err(BadFirstPage)
    else if st.pages != 0 && Bos(p) then Err(LateBos)
    else if st.pages != 0 && p.serial != st.serial then Err(OtherStream)
    else if p.sequence != st.expected then Err(BadSequence)
    else if Continued(p) == (st.assembly.pending == []) then Err(BadContinuation)
    else
      match Segments(st.assembly, p.lacing, p.body)
      case Err(e) => Err(e)
      case Ok(assembly) =>
        if p.granule != NO_GRANULE && p.granule < st.granule then Err(GranuleBackwards)
        else if Eos(p) && assembly.pending != [] then Err(EosInsidePacket)
        else if st.pages + 1 >= PAGE_LIMIT then Err(TooManyPages)
        else Ok(State(st.pages + 1, (st.expected + 1) % PAGE_LIMIT, p.serial, Eos(p),
                      if p.granule != NO_GRANULE then p.granule else st.granule, assembly))
  }

  predicate Complete(st: State) {
    && st.eos && st.assembly.pending == [] && st.assembly.count >= 4
    && st.assembly.shape.channels != 0 && st.assembly.shape.rate != 0 && st.granule != 0
  }

  function Finish(st: State, size: nat): Result<Summary> {
    if !Complete(st) then Err(Incomplete)
    else Ok(Summary(size, st.pages, st.assembly.count, st.assembly.shape,
                    st.granule as real / st.assembly.shape.rate as real))
  }

  function Drive(rest: seq<Byte>, st: State, size: nat): Result<Summary>
    decreases |rest|
  {
    if rest == [] then Finish(st, size)
    else if st.eos then Err(AfterEos)
    else
      match ReadPage(rest)
      case Err(e) => Err(e)
      case Ok(p) =>
        ReadIsSerialized(rest);
        match Step(st, p)
        case Err(e) => Err(e)
        case Ok(next) => Drive(rest[Size(p)..], next, size)
  }

  function Validated(file: seq<Byte>): Result<Summary> {
    if |file| < HEADER then Err(TooSmall) else Drive(file, START, |file|)
  }

  // ----- The same, as the program runs it ------------------------------------------------

  // The page these bytes make up, if its checksum field holds their checksum.
  method CheckPage(header: seq<Byte>, lacing: seq<Byte>, body: seq<Byte>) returns (r: Result<Page>)
    requires |header| == HEADER
    ensures var page := header + lacing + body;
            r == if ChecksumMatches(page) then Ok(PageOf(page, |lacing|)) else Err(BadChecksum)
  {
    hide FromLE, FromBytes32, Checksum, Value;
    var page := header + lacing + body;
    assert header[5] == page[5] && header[6..14] == page[6..14] && header[14..18] == page[14..18]
           && header[18..22] == page[18..22];
    assert lacing == page[HEADER..HEADER + |lacing|] && body == page[HEADER + |lacing|..];
    var stored := FromBytes32(page[22..26]);
    var blank := page[..22] + [0, 0, 0, 0] + page[26..];
    var computed := ComputeChecksum(blank);
    if computed != stored {
      return Err(BadChecksum);
    }
    r := Ok(Page(header[5], FromLE(header[6..14]), FromLE(header[14..18]), FromLE(header[18..22]), lacing, body));
  }

  method ReadPageAt(file: seq<Byte>, position: nat) returns (r: Result<Page>)
    requires position <= |file|
    ensures r == ReadPage(file[position..])
  {
    hide ChecksumMatches, PageOf, Value;
    ghost var rest := file[position..];
    if |file| - position < HEADER {
      return Err(HeaderTruncated);
    }
    var header := file[position..position + HEADER];
    assert header == rest[..HEADER] && header[0..4] == rest[..4];
    if header[0..4] != CAPTURE || header[4] != 0 {
      return Err(BadCapture);
    }
    if header[5] & 0xf8 != 0 {
      return Err(UnknownFlags);
    }
    var segments := Value(header[26]);
    if |file| - position < HEADER + segments {
      return Err(LacingTruncated);
    }
    var lacing := file[position + HEADER..position + HEADER + segments];
    assert lacing == rest[HEADER..HEADER + segments];
    var length := 0;
    for i := 0 to |lacing|
      invariant length + Total(lacing[i..]) == Total(lacing)
    {
      length := length + Value(lacing[i]);
      assert lacing[i..][1..] == lacing[i + 1..];
    }
    if |file| - position < HEADER + segments + length {
      return Err(BodyTruncated);
    }
    var body := file[position + HEADER + segments..position + HEADER + segments + length];
    assert header + lacing + body == rest[..HEADER + segments + length];
    r := CheckPage(header, lacing, body);
  }

  method ConsumeSegments(a: Assembly, lacing: seq<Byte>, body: seq<Byte>) returns (r: Result<Assembly>)
    requires |body| == Total(lacing)
    ensures r == Segments(a, lacing, body)
  {
    hide CheckHeader, Value;
    var packets, pending, shape := a.count, a.pending, a.shape;
    var offset := 0;
    for i := 0 to |lacing|
      invariant offset <= |body| && |body[offset..]| == Total(lacing[i..])
      invariant Segments(a, lacing, body) == Segments(Assembly(packets, pending, shape), lacing[i..], body[offset..])
    {
      var length := Value(lacing[i]);
      var end := offset + length;
      assert lacing[i..][1..] == lacing[i + 1..];
      assert body[offset..][..length] == body[offset..end] && body[offset..][length..] == body[end..];
      if |pending| + length > MAX_PACKET {
        return Err(PacketTooLong);
      }
      pending := pending + body[offset..end];
      offset := end;
      if length < 255 {
        if packets < 3 {
          var header := CheckHeader(packets, pending);
          if header.Err? {
            return Err(header.error);
          }
          if packets == 0 {
            shape := header.value;
          }
        }
        packets := packets + 1;
        pending := [];
      }
    }
    r := Ok(Assembly(packets, pending, shape));
  }

  method ValidateOggVorbis(file: seq<Byte>) returns (r: Result<Summary>)
    ensures r == Validated(file)
  {
    hide ReadPage, Segments, WellFormed, Serialize, Bos, Eos, Continued;
    if |file| < HEADER {
      return Err(TooSmall);
    }
    var position: nat, pages: nat, expected: nat, serial: nat, foundEos, lastGranule: nat := 0, 0, 0, 0, false, 0;
    var assembly := Assembly(0, [], UNKNOWN);
    while position < |file|
      invariant position <= |file|
      invariant Validated(file) == Drive(file[position..],
                                         State(pages, expected, serial, foundEos, lastGranule, assembly), |file|)
    {
      if foundEos {
        return Err(AfterEos);
      }
      ReadIsPage(file[position..]);
      var read := ReadPageAt(file, position);
      if read.Err? {
        return Err(read.error);
      }
      var page := read.value;
      if pages == 0 {
        if !Bos(page) || Continued(page) || page.sequence != 0 {
          return Err(BadFirstPage);
        }
      } else {
        if Bos(page) {
          return Err(LateBos);
        }
        if serial != page.serial {
          return Err(OtherStream);
        }
      }
      serial := page.serial;
      if page.sequence != expected {
        return Err(BadSequence);
      }
      if Continued(page) == (assembly.pending == []) {
        return Err(BadContinuation);
      }
      var consumed := ConsumeSegments(assembly, page.lacing, page.body);
      if consumed.Err? {
        return Err(consumed.error);
      }
      assembly := consumed.value;
      if page.granule != NO_GRANULE {
        if page.granule < lastGranule {
          return Err(GranuleBackwards);
        }
        lastGranule := page.granule;
      }
      if Eos(page) {
        if assembly.pending != [] {
          return Err(EosInsidePacket);
        }
        foundEos := true;
      }
      expected := (expected + 1) % PAGE_LIMIT;
      if pages + 1 >= PAGE_LIMIT {
        return Err(TooManyPages);
      }
      pages := pages + 1;
      assert file[position..][Size(page)..] == file[position + Size(page)..];
      position := position + Size(page);
    }
    assert file[position..] == [];
    r := Finish(State(pages, expected, serial, foundEos, lastGranule, assembly), |file|);
  }

  lemma ReadIsPage(rest: seq<Byte>)
    ensures ReadPage(rest).Ok? ==>
              |ReadPage(rest).value.body| == Total(ReadPage(rest).value.lacing)
                  && HEADER <= Size(ReadPage(rest).value) <= |rest|
  {
    if ReadPage(rest).Ok? {
      ReadIsSerialized(rest);
    }
  }
}
