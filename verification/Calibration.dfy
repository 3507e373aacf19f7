// Placing a phrase on the song's timeline from transport synchronisation events.
module Calibration {
  import opened Reals
  import opened Stats

  datatype Event = Event(seq_: nat, revision: nat, capturedAt: int, playhead: int, mic: int, rate: int, drift: real)

  datatype Phrase = Phrase(start: int, end: int, rate: int)

  predicate ValidPhrase(p: Phrase) {
    0 <= p.start < p.end && 8_000 <= p.rate <= 192_000
  }

  predicate Before(a: Event, b: Event) {
    a.seq_ < b.seq_ || (a.seq_ == b.seq_ && a.revision < b.revision)
  }

  ghost predicate ValidEvidence(events: seq<Event>) {
    && events != []
    && (forall i :: 0 <= i < |events| ==> 0 <= events[i].playhead && 0 <= events[i].mic && SmallDrift(events[i]))
    && InSequence(events)
  }

  datatype Policy = Policy(hop: int, maxDistanceMs: real, maxDrift: real, maxErrorMs: real, maxResidualMs: real,
                           maxRatePpm: real)

  const DEFAULT: Policy := Policy(480, 2_000.0, 1_000.0, 2.0, 5.0, 5_000.0)

  predicate ValidPolicy(p: Policy) {
    0 < p.hop <= 16_384 && p.maxDistanceMs > 0.0 && p.maxDrift > 0.0 && p.maxErrorMs > 0.0 && p.maxResidualMs > 0.0
        && p.maxRatePpm > 0.0
  }

  datatype Error =
    | OtherRate | TimeNotIncreasing | MicNotIncreasing | NotBracketed | AnchorTooFar | SeekInside | TooMuchDrift
    | Contradicted | OverBudget | BeforeTimeline

  datatype Result = Placed(reference: int, anchor: Event) | Refused(why: Error)

  // ----- The authoritative events -------------------------------------------------------

  // Of each sequence number, the last revision, in order.
  function Latest(events: seq<Event>): (r: seq<Event>)
    ensures |r| <= |events| && (events != [] ==> r != [] && r[|r| - 1] == events[|events| - 1])
  {
    if events == [] then []
    else
      var n := |events| - 1;
      var before := Latest(events[..n]);
      if n > 0 && events[n - 1].seq_ == events[n].seq_ then
        before[..|before| - 1] + [events[n]] else before + [events[n]]
  }

  ghost predicate AscendingSeq(s: seq<Event>) {
    forall i, j :: 0 <= i < j < |s| ==> s[i].seq_ < s[j].seq_
  }

  ghost predicate InSequence(events: seq<Event>) {
    forall i, j :: 0 <= i < j < |events| ==> Before(events[i], events[j])
  }

  // What of the earlier events' result survives the next event.
  function Kept(events: seq<Event>): seq<Event>
    requires events != []
  {
    var n := |events| - 1;
    var before := Latest(events[..n]);
    if n > 0 && events[n - 1].seq_ == events[n].seq_ then before[..|before| - 1] else before
  }

  lemma LatestStep(events: seq<Event>)
    requires events != []
    ensures var n := |events| - 1;
            var before, kept := Latest(events[..n]), Kept(events);
            && Latest(events) == kept + [events[n]] && |kept| <= |before| && kept == before[..|kept|]
            && (n > 0 ==> before != [] && before[|before| - 1] == events[n - 1])
            && (|kept| < |before| ==> n > 0 && |kept| == |before| - 1 && events[n - 1].seq_ == events[n].seq_)
            && (|kept| == |before| && n > 0 ==> events[n - 1].seq_ != events[n].seq_)
  {
  }

  lemma {:induction false} LatestAscends(events: seq<Event>)
    requires InSequence(events)
    ensures AscendingSeq(Latest(events)) && forall e :: e in Latest(events) ==> e in events
    decreases |events|
  {
    if events != [] {
      hide Latest, Kept;
      var n := |events| - 1;
      var before, kept := Latest(events[..n]), Kept(events);
      LatestStep(events);
      LatestAscends(events[..n]);
      if n > 0 {
        assert Before(events[n - 1], events[n]);
      }
      assert AscendingSeq(kept + [events[n]]);
      forall e | e in kept + [events[n]]
        ensures e in events
      {
        if e in kept {
          assert e in before;
          assert e in events[..n];
        }
      }
    }
  }

  lemma {:induction false} LatestIsLast(events: seq<Event>, e: Event, f: Event)
    requires InSequence(events) && e in Latest(events) && f in events && f.seq_ == e.seq_
    ensures f.revision <= e.revision
    decreases |events|
  {
    LatestNotEmpty(events);
    hide Latest, Kept, InSequence, AscendingSeq;
    var n := |events| - 1;
    var earlier, x := events[..n], events[n];
    LatestStep(events);
    SortedSplits(events);
    if e == x {
      if f != x {
        assert f in earlier;
        assert Before(f, x);
      }
    } else {
      assert e in Kept(events);
      LatestAscends(events);
      LatestOthers(events, e);
      assert f in earlier;
      LatestIsLast(earlier, e, f);
    }
  }

  lemma LatestNotEmpty(events: seq<Event>)
    requires Latest(events) != []
    ensures events != []
  {
  }

  lemma SortedSplits(events: seq<Event>)
    requires InSequence(events) && events != []
    ensures var n := |events| - 1;
            InSequence(events[..n]) && (forall f :: f in events ==> f in events[..n] || f == events[n])
                && forall f :: f in events[..n] ==> Before(f, events[n])
  {
    var n := |events| - 1;
    assert events == events[..n] + [events[n]];
  }

  lemma LatestOthers(events: seq<Event>, e: Event)
    requires events != [] && AscendingSeq(Kept(events) + [events[|events| - 1]]) && e in Kept(events)
    requires Kept(events) <= Latest(events[..|events| - 1])
    ensures e.seq_ < events[|events| - 1].seq_ && e in Latest(events[..|events| - 1])
  {
    hide Kept, Latest;
    var kept, x := Kept(events), events[|events| - 1];
    var k :| 0 <= k < |kept| && kept[k] == e;
    assert (kept + [x])[k] == e && (kept + [x])[|kept|] == x;
  }

  lemma {:induction false} LatestCovers(events: seq<Event>, f: Event)
    requires InSequence(events) && f in events
    ensures exists e :: e in Latest(events) && e.seq_ == f.seq_
    decreases |events|
  {
    hide Latest, Kept, InSequence;
    var n := |events| - 1;
    var earlier, x, r := events[..n], events[n], Latest(events);
    LatestStep(events);
    SortedSplits(events);
    assert x == r[|r| - 1];
    if f in earlier {
      LatestCovers(earlier, f);
      var before, kept := Latest(earlier), Kept(events);
      var e :| e in before && e.seq_ == f.seq_;
      var k :| 0 <= k < |before| && before[k] == e;
      if k < |kept| {
        assert r[k] == e;
      }
    }
  }

  // The latest revision of every sequence number, and nothing else, in order.
  lemma LatestIs(events: seq<Event>)
    requires InSequence(events)
    ensures AscendingSeq(Latest(events))
    ensures forall e :: e in Latest(events) <==> e in events && forall f :: f in events && f.seq_ == e.seq_ ==>
              f.revision <= e.revision
  {
    hide Latest, InSequence;
    LatestAscends(events);
    forall e | e in Latest(events)
      ensures forall f :: f in events && f.seq_ == e.seq_ ==> f.revision <= e.revision
    {
      forall f | f in events && f.seq_ == e.seq_
        ensures f.revision <= e.revision
      {
        LatestIsLast(events, e, f);
      }
    }
    forall e | e in events && forall f :: f in events && f.seq_ == e.seq_ ==> f.revision <= e.revision
      ensures e in Latest(events)
    {
      LatestCovers(events, e);
      var g :| g in Latest(events) && g.seq_ == e.seq_;
      LatestIsLast(events, g, e);
      Comparable(events, e, g);
    }
  }

  lemma Comparable(events: seq<Event>, e: Event, g: Event)
    requires InSequence(events) && e in events && g in events
    ensures e == g || Before(e, g) || Before(g, e)
  {
    var i :| 0 <= i < |events| && events[i] == e;
    var j :| 0 <= j < |events| && events[j] == g;
  }

  // ----- Segments without seeks ------------------------------------------------------------

  predicate Steady(a: Event, b: Event, policy: Policy) {
    && a.mic != b.mic && b.playhead > a.playhead
    && Abs((b.playhead - a.playhead) as real / (b.mic - a.mic) as real - 1.0) * 1_000_000.0 <= policy.maxRatePpm
  }

  ghost predicate AscendingMic(s: seq<Event>) {
    forall i, j :: 0 <= i < j < |s| ==> s[i].mic < s[j].mic
  }

  // ----- Where the phrase lies ----------------------------------------------------------------

  function Limit(ms: real, rate: int): real {
    ms * rate as real / 1000.0
  }

  // The number of events at or before a position; the last of them is the left anchor.
  function CountUpTo(s: seq<Event>, position: int): (n: nat)
    ensures n <= |s|
  {
    if s == [] then 0 else if s[|s| - 1].mic <= position then |s| else CountUpTo(s[..|s| - 1], position)
  }

  lemma {:induction false} CountUpToIs(s: seq<Event>, position: int)
    requires AscendingMic(s)
    ensures forall i :: 0 <= i < |s| ==> (s[i].mic <= position <==> i < CountUpTo(s, position))
  {
    if s != [] && s[|s| - 1].mic > position {
      CountUpToIs(s[..|s| - 1], position);
    }
  }

  lemma {:induction false} StepwiseAscends(s: seq<Event>)
    requires forall i :: 0 < i < |s| ==> s[i - 1].mic < s[i].mic
    ensures AscendingMic(s)
  {
    if s != [] {
      var n := |s| - 1;
      StepwiseAscends(s[..n]);
      forall i, j | 0 <= i < j < |s|
        ensures s[i].mic < s[j].mic
      {
        if j == n && i < n - 1 {
          assert s[..n][i].mic < s[..n][n - 1].mic;
        }
      }
    }
  }

  lemma {:induction false} CountsInOrder(s: seq<Event>, a: int, b: int)
    requires a <= b
    ensures CountUpTo(s, a) <= CountUpTo(s, b)
  {
    if s != [] {
      CountsInOrder(s[..|s| - 1], a, b);
    }
  }

  function Closest(s: seq<Event>, position: int): (e: Event)
    requires s != []
    ensures e in s && forall i :: 0 <= i < |s| ==> Distance(e, position) <= Distance(s[i], position)
  {
    if |s| == 1 then s[0]
    else
      var n := |s| - 1;
      var before := Closest(s[..n], position);
      assert forall i :: 0 <= i < n ==> s[..n][i] == s[i];
      if Distance(s[n], position) < Distance(before, position) then s[n] else before
  }

  function Distance(e: Event, position: int): int {
    if e.mic >= position then e.mic - position else position - e.mic
  }

  function RateOf(anchor: Event): real {
    1.0 + anchor.drift / 1_000_000.0
  }

  // The reference position of a microphone position.
  function Compensated(anchor: Event, mic: int): real
    requires RateOf(anchor) != 0.0
  {
    anchor.playhead as real + (mic - anchor.mic) as real / RateOf(anchor)
  }

  predicate Agrees(anchor: Event, e: Event, rate: int, policy: Policy)
    requires RateOf(anchor) != 0.0
  {
    Abs(Compensated(anchor, e.mic) - e.playhead as real) <= Limit(policy.maxResidualMs, rate)
  }

  predicate MixedRates(s: seq<Event>, rate: int) {
    exists i :: 0 <= i < |s| && s[i].rate != rate
  }

  predicate TimeStalls(s: seq<Event>) {
    exists i :: 0 < i < |s| && s[i].capturedAt <= s[i - 1].capturedAt
  }

  predicate MicStalls(s: seq<Event>) {
    exists i :: 0 < i < |s| && s[i].mic <= s[i - 1].mic
  }

  // A seek or loop between two neighbouring events.
  predicate Seeks(s: seq<Event>, policy: Policy) {
    exists k :: 0 < k < |s| && !Steady(s[k - 1], s[k], policy)
  }

  predicate Bracketed(s: seq<Event>, phrase: Phrase) {
    CountUpTo(s, phrase.start) > 0 && CountUpTo(s, phrase.end - 1) < |s|
  }

  // From the last event at or before the phrase to the first at or after its end.
  function Around(s: seq<Event>, phrase: Phrase): (around: seq<Event>)
    requires Bracketed(s, phrase) && CountUpTo(s, phrase.start) <= CountUpTo(s, phrase.end - 1)
    ensures |around| >= 2 && forall e :: e in around ==> e in s
  {
    s[CountUpTo(s, phrase.start) - 1..CountUpTo(s, phrase.end - 1) + 1]
  }

  predicate FarFrom(around: seq<Event>, phrase: Phrase, policy: Policy)
    requires around != []
  {
    var limit := Round(Limit(policy.maxDistanceMs, phrase.rate));
    phrase.start - around[0].mic > limit || around[|around| - 1].mic - phrase.end > limit
  }

  predicate Contradicts(around: seq<Event>, anchor: Event, rate: int, policy: Policy)
    requires RateOf(anchor) != 0.0
  {
    exists i :: 0 <= i < |around| && !Agrees(anchor, around[i], rate, policy)
  }

  predicate ExceedsBudget(phrase: Phrase, anchor: Event, policy: Policy) {
    (phrase.end - phrase.start) as real * Abs(anchor.drift) / 1_000_000.0 > Limit(policy.maxErrorMs, phrase.rate)
  }

  predicate SmallDrift(e: Event) {
    -2_000.0 <= e.drift <= 2_000.0
  }

  // Given the authoritative events.
  function Place(phrase: Phrase, s: seq<Event>, policy: Policy): Result
    requires ValidPhrase(phrase) && forall e :: e in s ==> SmallDrift(e)
  {
    if MixedRates(s, phrase.rate) then Refused(OtherRate)
    else if TimeStalls(s) then Refused(TimeNotIncreasing)
    else if MicStalls(s) then Refused(MicNotIncreasing)
    else if !Bracketed(s, phrase) then Refused(NotBracketed)
    else
      CountsInOrder(s, phrase.start, phrase.end - 1);
      var around := Around(s, phrase);
      if FarFrom(around, phrase, policy) then Refused(AnchorTooFar)
      else if Seeks(around, policy) then Refused(SeekInside)
      else PlaceAt(phrase, around, Closest(around, phrase.start), policy)
  }

  function PlaceAt(phrase: Phrase, around: seq<Event>, anchor: Event, policy: Policy): Result
    requires SmallDrift(anchor)
  {
    if Abs(anchor.drift) > policy.maxDrift then Refused(TooMuchDrift)
    else if Contradicts(around, anchor, phrase.rate, policy) then Refused(Contradicted)
    else if ExceedsBudget(phrase, anchor, policy) then Refused(Error.OverBudget)
    else
      var reference := Round(Compensated(anchor, phrase.start));
      if reference < 0 then Refused(BeforeTimeline) else Placed(reference, anchor)
  }

  function CalibratePhrase(phrase: Phrase, events: seq<Event>, policy: Policy): Result
    requires ValidPhrase(phrase) && ValidEvidence(events)
  {
    LatestAscends(events);
    assert forall e :: e in events ==> SmallDrift(e);
    Place(phrase, Latest(events), policy)
  }

  // ----- What an accepted calibration guarantees ------------------------------------------------

  // Every event around an accepted phrase: bracketing it closely, free of seeks, and
  // agreeing with the anchor's drift.
  ghost predicate Surrounds(around: seq<Event>, phrase: Phrase, anchor: Event, policy: Policy)
    requires RateOf(anchor) > 0.0
  {
    && |around| >= 2 && anchor in around && AscendingMic(around)
    && around[0].mic <= phrase.start && phrase.end <= around[|around| - 1].mic
    && phrase.start - around[0].mic <= Round(Limit(policy.maxDistanceMs, phrase.rate))
    && around[|around| - 1].mic - phrase.end <= Round(Limit(policy.maxDistanceMs, phrase.rate))
    && (forall i :: 0 < i < |around| ==> Steady(around[i - 1], around[i], policy))
    && (forall i :: 0 <= i < |around| ==> Agrees(anchor, around[i], phrase.rate, policy))
    && (forall i :: 0 <= i < |around| ==> Distance(anchor, phrase.start) <= Distance(around[i], phrase.start))
  }

  lemma RatePositive(anchor: Event)
    requires SmallDrift(anchor)
    ensures 0.998 <= RateOf(anchor) <= 1.002
  {
  }

  // The events around a phrase bracket it.
  lemma AroundBrackets(phrase: Phrase, s: seq<Event>)
    requires !MicStalls(s) && phrase.start < phrase.end && Bracketed(s, phrase)
    ensures CountUpTo(s, phrase.start) <= CountUpTo(s, phrase.end - 1)
    ensures var around := Around(s, phrase);
            AscendingMic(around) && around[0].mic <= phrase.start && phrase.end <= around[|around| - 1].mic
  {
    hide CountUpTo;
    CountsInOrder(s, phrase.start, phrase.end - 1);
    StepwiseAscends(s);
    CountUpToIs(s, phrase.start);
    CountUpToIs(s, phrase.end - 1);
  }

  lemma PlacedSurrounds(phrase: Phrase, s: seq<Event>, policy: Policy)
    requires ValidPhrase(phrase) && (forall e :: e in s ==> SmallDrift(e))
    requires Place(phrase, s, policy).Placed?
    ensures var p := Place(phrase, s, policy);
            && SmallDrift(p.anchor) && 0.998 <= RateOf(p.anchor) <= 1.002
            && p.reference >= 0 && p.reference == Round(Compensated(p.anchor, phrase.start))
            && !ExceedsBudget(phrase, p.anchor, policy) && Abs(p.anchor.drift) <= policy.maxDrift
            && Bracketed(s, phrase) && CountUpTo(s, phrase.start) <= CountUpTo(s, phrase.end - 1)
            && Surrounds(Around(s, phrase), phrase, p.anchor, policy)
  {
    hide Limit, Round, Agrees, Compensated, Steady, Closest, ExceedsBudget, RateOf, CountUpTo, Around, MicStalls,
         TimeStalls, MixedRates, Bracketed;
    AroundBrackets(phrase, s);
    RatePositive(Place(phrase, s, policy).anchor);
  }

  // ----- The error budget -------------------------------------------------------------------------

  // Ignoring the drift over a distance costs what the drift amounts to over it.
  lemma IgnoredDrift(d: real, distance: real, drift: real, rate: real, budget: real)
    requires rate == 1.0 + drift / 1_000_000.0 && rate > 0.0 && 0.0 <= d <= distance
    requires distance * Abs(drift) / 1_000_000.0 <= budget
    ensures Abs(d - d / rate) <= budget / rate
  {
    var q, b := d / rate, budget / rate;
    DivideSign(d, rate);
    assert Mul(q, rate) == d;
    assert Mul(b, rate) == budget;
    var gap := d - q;
    assert Mul(gap, rate) == Mul(d, drift / 1_000_000.0) by {
      MulSubtract(d, q, rate);
      MulAdd(d, 1.0, drift / 1_000_000.0);
    }
    var size := Abs(drift) / 1_000_000.0;
    ScaleOrder(d, distance, size);
    assert Mul(distance, size) <= budget;
    assert -Mul(d, size) <= Mul(d, drift / 1_000_000.0) <= Mul(d, size) by {
      ScaleOrder(-size, drift / 1_000_000.0, d);
      ScaleOrder(drift / 1_000_000.0, size, d);
      MulCommutes(d, size);
      MulCommutes(d, -size);
      MulCommutes(d, drift / 1_000_000.0);
    }
    ScaleIff(gap, b, rate);
    ScaleIff(-b, gap, rate);
  }

  lemma CompensatedStep(anchor: Event, mic: int, d: int)
    requires RateOf(anchor) > 0.0
    ensures Compensated(anchor, mic + d) == Compensated(anchor, mic) + d as real / RateOf(anchor)
  {
    var r := RateOf(anchor);
    DivideSum((mic - anchor.mic) as real, d as real, r);
  }

  // Every sample of an accepted phrase lands where the anchor's drift puts it, give or
  // take half a sample and the uncompensated error allowed for the whole phrase.
  lemma PlacedWithinBudget(phrase: Phrase, s: seq<Event>, policy: Policy, d: int)
    requires ValidPhrase(phrase) && (forall e :: e in s ==> SmallDrift(e)) && 0 <= d <= phrase.end - phrase.start
    requires Place(phrase, s, policy).Placed?
    ensures var p := Place(phrase, s, policy);
            && RateOf(p.anchor) > 0.0
            && Abs((p.reference + d) as real - Compensated(p.anchor, phrase.start + d))
               <= 0.5 + Limit(policy.maxErrorMs, phrase.rate) / RateOf(p.anchor)
  {
    hide Place, Surrounds, Bracketed, CountUpTo;
    PlacedSurrounds(phrase, s, policy);
    AnchoredWithinBudget(phrase, Place(phrase, s, policy).anchor, policy, d);
  }

  lemma AnchoredWithinBudget(phrase: Phrase, anchor: Event, policy: Policy, d: int)
    requires 0 <= d <= phrase.end - phrase.start && RateOf(anchor) > 0.0 && !ExceedsBudget(phrase, anchor, policy)
    ensures Abs((Round(Compensated(anchor, phrase.start)) + d) as real - Compensated(anchor, phrase.start + d))
            <= 0.5 + Limit(policy.maxErrorMs, phrase.rate) / RateOf(anchor)
  {
    var budget := Limit(policy.maxErrorMs, phrase.rate);
    var rate, c := RateOf(anchor), Compensated(anchor, phrase.start);
    assert (phrase.end - phrase.start) as real * Abs(anchor.drift) / 1_000_000.0 <= budget;
    CompensatedStep(anchor, phrase.start, d);
    hide Compensated, Limit, Round;
    IgnoredDrift(d as real, (phrase.end - phrase.start) as real, anchor.drift, rate, budget);
    RoundNear(c);
    hide *;
    Triangle(Round(c) as real, c, d as real, d as real / rate, budget / rate);
    assert (Round(c) + d) as real == Round(c) as real + d as real;
  }

  lemma RoundNear(x: real)
    ensures Abs(Round(x) as real - x) <= 0.5
  {
  }

  lemma Triangle(r: real, c: real, d: real, q: real, bound: real)
    requires Abs(r - c) <= 0.5 && Abs(d - q) <= bound
    ensures Abs(r + d - (c + q)) <= 0.5 + bound
  {
  }

  // ----- No seek, so playhead and microphone advance alike ---------------------------------------

  lemma SteadyStep(a: Event, b: Event, policy: Policy)
    requires Steady(a, b, policy) && a.mic < b.mic
    ensures a.playhead < b.playhead
    ensures Abs((b.playhead - a.playhead) as real - (b.mic - a.mic) as real) <=
            Mul(policy.maxRatePpm / 1_000_000.0, (b.mic - a.mic) as real)
  {
    var p, m := (b.playhead - a.playhead) as real, (b.mic - a.mic) as real;
    var q, e := p / m, policy.maxRatePpm / 1_000_000.0;
    assert Mul(q, m) == p;
    assert Abs(q - 1.0) <= e;
    ScaleOrder(q - 1.0, e, m);
    ScaleOrder(-e, q - 1.0, m);
    MulSubtract(q, 1.0, m);
    assert Mul(1.0, m) == m && Mul(-e, m) == -Mul(e, m);
  }

  // Between any two events of a segment the playhead moves forward, by what the
  // microphone recorded to within the segment's rate error.
  lemma {:induction false} SegmentAdvances(around: seq<Event>, i: nat, j: nat, policy: Policy)
    requires AscendingMic(around) && i < j < |around|
    requires forall k :: 0 < k < |around| ==> Steady(around[k - 1], around[k], policy)
    ensures around[i].playhead < around[j].playhead
    ensures Abs((around[j].playhead - around[i].playhead) as real - (around[j].mic - around[i].mic) as real)
            <= Mul(policy.maxRatePpm / 1_000_000.0, (around[j].mic - around[i].mic) as real)
    decreases j - i
  {
    hide Steady;
    SteadyStep(around[j - 1], around[j], policy);
    if i < j - 1 {
      SegmentAdvances(around, i, j - 1, policy);
      MulAdd(policy.maxRatePpm / 1_000_000.0, (around[j - 1].mic - around[i].mic) as real,
             (around[j].mic - around[j - 1].mic) as real);
    }
  }

  ghost predicate Together(around: seq<Event>, error: real) {
    forall i, j :: 0 <= i < j < |around| ==>
      && around[i].playhead < around[j].playhead
      && Abs((around[j].playhead - around[i].playhead) as real - (around[j].mic - around[i].mic) as real)
         <= Mul(error, (around[j].mic - around[i].mic) as real)
  }

  lemma SurroundsTogether(around: seq<Event>, phrase: Phrase, anchor: Event, policy: Policy)
    requires RateOf(anchor) > 0.0 && Surrounds(around, phrase, anchor, policy)
    ensures Together(around, policy.maxRatePpm / 1_000_000.0)
  {
    hide Steady, RateOf, Agrees, Limit, Distance;
    forall i, j | 0 <= i < j < |around|
      ensures around[i].playhead < around[j].playhead
      ensures Abs((around[j].playhead - around[i].playhead) as real - (around[j].mic - around[i].mic) as real)
              <= Mul(policy.maxRatePpm / 1_000_000.0, (around[j].mic - around[i].mic) as real)
    {
      SegmentAdvances(around, i, j, policy);
    }
  }

  // All of it together, for the whole calibration under the default policy: the events
  // around the phrase move forward in step to within half a percent, each within 5 ms
  // of where the anchor puts it, and every sample of the phrase within 2 ms and half a
  // sample (the 2 ms divided by the anchor's rate, which is at least 0.998).
  lemma CalibrationIsSound(phrase: Phrase, events: seq<Event>, d: int)
    requires ValidPhrase(phrase) && ValidEvidence(events) && 0 <= d <= phrase.end - phrase.start
    requires CalibratePhrase(phrase, events, DEFAULT).Placed?
    ensures var p, s := CalibratePhrase(phrase, events, DEFAULT), Latest(events);
            && SmallDrift(p.anchor) && 0.998 <= RateOf(p.anchor) <= 1.002 && Abs(p.anchor.drift) <= 1_000.0
               && p.reference >= 0
            && Bracketed(s, phrase) && CountUpTo(s, phrase.start) <= CountUpTo(s, phrase.end - 1)
            && var around := Around(s, phrase);
               && Surrounds(around, phrase, p.anchor, DEFAULT)
               && Together(around, 0.005)
               && Abs((p.reference + d) as real - Compensated(p.anchor, phrase.start + d))
                  <= 0.5 + Limit(2.0, phrase.rate) / RateOf(p.anchor)
  {
    LatestAscends(events);
    assert forall e :: e in events ==> SmallDrift(e);
    hide Latest, Place, Compensated, Limit, RateOf, Steady, CountUpTo, Surrounds, Together, Bracketed, Around,
         InSequence;
    var s := Latest(events);
    PlacedSurrounds(phrase, s, DEFAULT);
    PlacedWithinBudget(phrase, s, DEFAULT, d);
    SurroundsTogether(Around(s, phrase), phrase, Place(phrase, s, DEFAULT).anchor, DEFAULT);
  }
}
