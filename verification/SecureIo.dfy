// Decrypting a whole file, piece by piece as reads deliver it, and publishing the result
// only if it is a complete Ogg Vorbis stream.
module SecureIo {
  import opened Bytes
  import opened Qmc2
  import OggPages
  import OggStream

  class Crypto {
    const mapInner: MapCrypto?
    const rc4Inner: Rc4Crypto?

    ghost predicate Valid() {
      (mapInner != null && rc4Inner == null && mapInner.Valid())
          || (mapInner == null && rc4Inner != null && rc4Inner.Valid())
    }

    ghost function Model(): Cipher
      requires Valid()
    {
      if mapInner != null then mapInner.Model() else rc4Inner.Model()
    }

    // The length of the decoded key selects the cipher.
    constructor (key: seq<Byte>, segmentKey: SegmentKey)
      requires |key| >= 8
      ensures Valid() && ValidCipher(Model())
      ensures Model() == if |key| > 300 then Rc4Cipher(key, segmentKey) else MapCipher(key)
    {
      if |key| > 300 {
        mapInner := null;
        rc4Inner := new Rc4Crypto(key, segmentKey);
      } else {
        mapInner := new MapCrypto(key);
        rc4Inner := null;
      }
    }

    // False stands for the panic of an index out of range.
    method Decrypt(start: nat, buf: array<Byte>, length: nat) returns (ok: bool)
      requires Valid() && ValidCipher(Model()) && 0 < length <= buf.Length
      modifies buf
      ensures ok <==> RangeCovered(Model(), start, length)
      ensures ok ==> Keyed(Model(), start, old(buf[..]), buf[..], 0, length)
    {
      if mapInner != null {
        mapInner.Decrypt(start, buf, length);
        ok := true;
      } else {
        ok := rc4Inner.Decrypt(start, buf, length);
      }
    }
  }

  datatype Outcome =
    | Decrypted(output: seq<Byte>) | SizeInvalid | ReadFailed | EndedEarly | Panicked

  predicate SizeOk(audioLen: nat) {
    0 < audioLen <= MAX_INPUT_BYTES
  }

  // What one read call delivers: an I/O error, or some of what was asked for.
  type ReadPattern = nat -> ReadResult

  datatype ReadResult = Failed | Delivered(count: nat)

  ghost predicate NeverStalls(source: ReadPattern) {
    forall i :: source(i).Delivered? && source(i).count > 0
  }

  method FillFrom(buffer: array<Byte>, data: seq<Byte>)
    requires |data| <= buffer.Length
    modifies buffer
    ensures buffer[..|data|] == data && forall y :: |data| <= y < buffer.Length ==> buffer[y] == old(buffer[y])
  {
    for x := 0 to |data|
      invariant buffer[..x] == data[..x] && forall y :: x <= y < buffer.Length ==> buffer[y] == old(buffer[y])
    {
      buffer[x] := data[x];
    }
  }

  method Zeroize(buffer: array<Byte>, count: nat)
    requires count <= buffer.Length
    modifies buffer
    ensures forall y :: 0 <= y < buffer.Length ==> buffer[y] == if y < count then 0 else old(buffer[y])
  {
    for x := 0 to count
      invariant forall y :: 0 <= y < buffer.Length ==> buffer[y] == if y < x then 0 else old(buffer[y])
    {
      buffer[x] := 0;
    }
  }

  method DecryptFile(crypto: Crypto, input: seq<Byte>, audioLen: nat, source: ReadPattern) returns (r: Outcome)
    requires crypto.Valid() && ValidCipher(crypto.Model())
    ensures r.SizeInvalid? <==> !SizeOk(audioLen)
    ensures r.Decrypted? ==>
              && audioLen <= |input| && RangeCovered(crypto.Model(), 0, audioLen)
              && r.output == Applied(crypto.Model(), 0, input[..audioLen])
    ensures r.Panicked? ==> !RangeCovered(crypto.Model(), 0, audioLen)
    ensures SizeOk(audioLen) && audioLen <= |input| && NeverStalls(source) ==>
              if RangeCovered(crypto.Model(), 0, audioLen) then r.Decrypted? else r.Panicked?
  {
    hide StreamByte, Covered, Keyed, Applied;
    if audioLen == 0 || audioLen > MAX_INPUT_BYTES {
      return SizeInvalid;
    }
    var buffer := new Byte[CHUNK_BYTES](_ => 0);
    var output: seq<Byte> := [];
    var offset: nat, call := 0, 0;
    assert output == Applied(crypto.Model(), 0, input[..0]) by {
      NothingApplied(crypto.Model());
    }
    while offset < audioLen
      invariant offset <= audioLen && offset <= |input|
      invariant RangeCovered(crypto.Model(), 0, offset)
      invariant output == Applied(crypto.Model(), 0, input[..offset])
      invariant forall x :: 0 <= x < buffer.Length ==> buffer[x] == 0
    {
      var remaining := Least(audioLen - offset, CHUNK_BYTES);
      var result := source(call);
      call := call + 1;
      if result.Failed? {
        return ReadFailed;
      }
      var read := Least(result.count, Least(remaining, |input| - offset));
      if read == 0 {
        return EndedEarly;
      }
      ghost var data := input[offset..offset + read];
      FillFrom(buffer, input[offset..offset + read]);
      ghost var was := buffer[..];
      var ok := crypto.Decrypt(offset, buffer, read);
      if !ok {
        RangeSplits(crypto.Model(), offset, read, audioLen);
        return Panicked;
      }
      KeyedIsApplied(crypto.Model(), offset, was, buffer[..], read);
      assert input[..offset + read] == input[..offset] + data;
      assert RangeCovered(crypto.Model(), 0, offset + read);
      AppliedAppend(crypto.Model(), 0, input[..offset], data);
      output := output + buffer[..read];
      KeyedTail(crypto.Model(), offset, was, buffer[..], read);
      Zeroize(buffer, read);
      offset := offset + read;
    }
    r := Decrypted(output);
  }

  lemma NothingApplied(c: Cipher)
    requires ValidCipher(c)
    ensures forall data: seq<Byte> :: data == [] ==> Applied(c, 0, data) == []
  {
  }

  lemma RangeSplits(c: Cipher, offset: nat, read: nat, audioLen: nat)
    requires offset + read <= audioLen && !RangeCovered(c, offset, read)
    ensures !RangeCovered(c, 0, audioLen)
  {
    hide Covered;
  }

  lemma KeyedIsApplied(c: Cipher, offset: nat, was: seq<Byte>, now: seq<Byte>, read: nat)
    requires ValidCipher(c) && RangeCovered(c, offset, read) && read <= |was| && Keyed(c, offset, was, now, 0, read)
    ensures |now| == |was| && now[..read] == Applied(c, offset, was[..read])
  {
    hide StreamByte, Covered;
  }

  lemma KeyedTail(c: Cipher, offset: nat, was: seq<Byte>, now: seq<Byte>, read: nat)
    requires ValidCipher(c) && RangeCovered(c, offset, read) && Keyed(c, offset, was, now, 0, read)
    ensures |now| == |was| && forall x :: read <= x < |was| ==> now[x] == was[x]
  {
    hide StreamByte, Covered;
  }

  // ----- Publishing ---------------------------------------------------------------------

  datatype Published =
    | Committed(bytes: seq<Byte>, summary: OggStream.Summary) | NotDecrypted(why: Outcome)
        | NotOgg(error: OggPages.Error)
    | WrongLength

  // The output appears under its name only after it has been validated.
  method DecryptToAtomicOutput(crypto: Crypto, input: seq<Byte>, audioLen: nat, source: ReadPattern)
    returns (p: Published)
    requires crypto.Valid() && ValidCipher(crypto.Model())
    ensures p.Committed? ==>
              && audioLen <= |input| && RangeCovered(crypto.Model(), 0, audioLen)
              && p.bytes == Applied(crypto.Model(), 0, input[..audioLen])
              && OggStream.Validated(p.bytes) == OggPages.Ok(p.summary)
    ensures SizeOk(audioLen) && audioLen <= |input| && NeverStalls(source)
            && RangeCovered(crypto.Model(), 0, audioLen) ==>
              (p.Committed? <==> OggStream.Validated(Applied(crypto.Model(), 0, input[..audioLen])).Ok?)
    ensures p == NotDecrypted(Panicked) ==> !RangeCovered(crypto.Model(), 0, audioLen)
    ensures SizeOk(audioLen) && audioLen <= |input| && NeverStalls(source)
            && !RangeCovered(crypto.Model(), 0, audioLen) ==>
              p == NotDecrypted(Panicked)
    ensures !p.WrongLength?
  {
    hide Applied, StreamByte, Covered, OggStream.Drive;
    var r := DecryptFile(crypto, input, audioLen, source);
    if !r.Decrypted? {
      return NotDecrypted(r);
    }
    var v := OggStream.ValidateOggVorbis(r.output);
    if v.Err? {
      return NotOgg(v.error);
    }
    DriveCounts(r.output, OggStream.START, |r.output|);
    if v.value.bytes != audioLen {
      return WrongLength;
    }
    p := Committed(r.output, v.value);
  }

  // The reported size is the size of the file, so the length check after validation
  // never fails.
  lemma {:induction false} DriveCounts(rest: seq<Byte>, st: OggStream.State, size: nat)
    ensures OggStream.Drive(rest, st, size).Ok? ==> OggStream.Drive(rest, st, size).value.bytes == size
    decreases |rest|
  {
    hide OggPages.ReadPage, OggStream.Step;
    if rest != [] && !st.eos && OggPages.ReadPage(rest).Ok? {
      OggPages.ReadIsSerialized(rest);
      var p := OggPages.ReadPage(rest).value;
      if OggStream.Step(st, p).Ok? {
        DriveCounts(rest[OggPages.Size(p)..], OggStream.Step(st, p).value, size);
      }
    }
  }

  // A key of 301 to 511 bytes has key bytes for no more than the first |key| segments.
  predicate TooShortFor(key: seq<Byte>, audioLen: nat) {
    300 < |key| < 512 && audioLen > |key| * OTHER_SEGMENT_SIZE
  }

  // Any other key has a key byte for every offset, and for every key of those lengths the
  // size check lets files through that are too long for it.
  lemma ShortKeyRunsOut(key: seq<Byte>, segmentKey: SegmentKey, audioLen: nat)
    requires |key| >= 8
    ensures var c := if |key| > 300 then Rc4Cipher(key, segmentKey) else MapCipher(key);
            RangeCovered(c, 0, audioLen) <==> !TooShortFor(key, audioLen)
    ensures 300 < |key| < 512 ==>
              SizeOk(|key| * OTHER_SEGMENT_SIZE + 1) && TooShortFor(key, |key| * OTHER_SEGMENT_SIZE + 1)
  {
    CoveredPrefix(if |key| > 300 then Rc4Cipher(key, segmentKey) else MapCipher(key), audioLen);
  }

  // From the decoded key to the published file.  However the reads turn out, a file too
  // long for its key is never published; when they deliver all of it, the run panics, and
  // it panics on no other file.
  method DecryptAuthorized(key: seq<Byte>, segmentKey: SegmentKey, input: seq<Byte>, audioLen: nat, source: ReadPattern)
    returns (p: Published)
    requires |key| >= 8
    ensures TooShortFor(key, audioLen) ==> !p.Committed?
    ensures SizeOk(audioLen) && audioLen <= |input| && NeverStalls(source) ==>
              (p == NotDecrypted(Panicked) <==> TooShortFor(key, audioLen))
    ensures p == NotDecrypted(Panicked) ==> TooShortFor(key, audioLen)
  {
    hide RangeCovered, TooShortFor, Applied, OggStream.Validated;
    var crypto := new Crypto(key, segmentKey);
    ShortKeyRunsOut(key, segmentKey, audioLen);
    p := DecryptToAtomicOutput(crypto, input, audioLen, source);
  }
}
