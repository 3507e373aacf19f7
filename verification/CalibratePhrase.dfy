// The calibration as the source runs it, with its dictionary, its list of segments and
// its loops, proved to give what `Calibration.CalibratePhrase` says.
module CalibratePhrase {
  import opened Reals
  import opened Stats
  import opened Calibration

  // ----- The latest revision of each sequence number, sorted ---------------------------------

  ghost predicate Holds(bySeq: map<nat, Event>, s: seq<Event>) {
    && (forall e :: e in s ==> e.seq_ in bySeq && bySeq[e.seq_] == e)
    && (forall k :: k in bySeq ==> bySeq[k] in s && bySeq[k].seq_ == k)
  }

  lemma KeptOthers(events: seq<Event>)
    requires events != [] && InSequence(events)
    ensures forall e :: e in Kept(events) ==> e in Latest(events[..|events| - 1]) && e.seq_ != events[|events| - 1].seq_
    ensures forall e :: e in Latest(events[..|events| - 1]) ==> e in Kept(events) || e.seq_ == events[|events| - 1].seq_
  {
    hide Latest, Kept, InSequence, AscendingSeq;
    var n := |events| - 1;
    var before, kept := Latest(events[..n]), Kept(events);
    LatestStep(events);
    LatestAscends(events);
    forall e | e in kept
      ensures e in before && e.seq_ != events[n].seq_
    {
      LatestOthers(events, e);
    }
    forall e | e in before && e !in kept
      ensures e.seq_ == events[n].seq_
    {
      assert forall j :: 0 <= j < |kept| ==> kept[j] == before[j] && kept[j] in kept;
      var i :| 0 <= i < |before| && before[i] == e;
    }
  }

  lemma HoldsNext(bySeq: map<nat, Event>, events: seq<Event>)
    requires events != [] && InSequence(events) && Holds(bySeq, Latest(events[..|events| - 1]))
    ensures var e := events[|events| - 1];
            && (e.seq_ in bySeq ==> e.revision > bySeq[e.seq_].revision)
            && Holds(bySeq[e.seq_ := e], Latest(events))
  {
    hide Latest, Kept, InSequence, AscendingSeq;
    var n := |events| - 1;
    var x := events[n];
    LatestStep(events);
    KeptOthers(events);
    SortedSplits(events);
    LatestAscends(events[..n]);
    if x.seq_ in bySeq {
      assert Before(bySeq[x.seq_], x);
    }
    HoldsJoined(bySeq, Latest(events[..n]), Kept(events), x);
  }

  lemma HoldsJoined(bySeq: map<nat, Event>, before: seq<Event>, kept: seq<Event>, x: Event)
    requires Holds(bySeq, before)
    requires forall e :: e in kept ==> e in before && e.seq_ != x.seq_
    requires forall e :: e in before ==> e in kept || e.seq_ == x.seq_
    ensures Holds(bySeq[x.seq_ := x], kept + [x])
  {
  }

  method SelectLatest(events: seq<Event>) returns (bySeq: map<nat, Event>)
    requires InSequence(events)
    ensures Holds(bySeq, Latest(events))
  {
    hide Latest, Holds;
    bySeq := map[];
    assert Holds(bySeq, Latest(events[..0])) by {
      NothingHeld();
    }
    for i := 0 to |events|
      invariant Holds(bySeq, Latest(events[..i]))
    {
      assert events[..i + 1][..i] == events[..i];
      HoldsNext(bySeq, events[..i + 1]);
      var event := events[i];
      if event.seq_ !in bySeq || event.revision > bySeq[event.seq_].revision {
        bySeq := bySeq[event.seq_ := event];
      }
    }
    assert events[..|events|] == events;
  }

  lemma NothingHeld()
    ensures forall events: seq<Event> :: events == [] ==> Holds(map[], Latest(events))
  {
  }

  predicate Least(keys: set<nat>, k: nat) {
    k in keys && forall j :: j in keys ==> k <= j
  }

  lemma {:induction false} LeastBelow(keys: set<nat>, k: nat)
    requires k in keys
    ensures exists least :: Least(keys, least)
    decreases k
  {
    if j :| j in keys && j < k {
      LeastBelow(keys, j);
    } else {
      assert Least(keys, k);
    }
  }

  method InOrder(bySeq: map<nat, Event>, ghost latest: seq<Event>) returns (selected: seq<Event>)
    requires Holds(bySeq, latest) && AscendingSeq(latest)
    ensures selected == latest
  {
    AllHeld(bySeq, latest);
    hide Holds, AscendingSeq, Least;
    var keys := bySeq.Keys;
    selected := [];
    while keys != {}
      invariant keys <= bySeq.Keys && |selected| <= |latest| && selected == latest[..|selected|]
      invariant forall i :: 0 <= i < |latest| ==> (latest[i].seq_ in keys <==> |selected| <= i)
      invariant |selected| < |latest| ==> latest[|selected|].seq_ in keys
      decreases |keys|
    {
      var some :| some in keys;
      LeastBelow(keys, some);
      var k :| Least(keys, k);
      LeastIsNext(bySeq, latest, keys, |selected|, k);
      selected := selected + [bySeq[k]];
      keys := keys - {k};
    }
    assert |selected| == |latest|;
    assert latest[..|latest|] == latest;
  }

  lemma AllHeld(bySeq: map<nat, Event>, latest: seq<Event>)
    requires Holds(bySeq, latest)
    ensures forall i :: 0 <= i < |latest| ==> latest[i].seq_ in bySeq
  {
  }

  lemma LeastIsNext(bySeq: map<nat, Event>, latest: seq<Event>, keys: set<nat>, at: nat, k: nat)
    requires Holds(bySeq, latest) && AscendingSeq(latest) && keys <= bySeq.Keys
    requires forall i :: 0 <= i < |latest| ==> (latest[i].seq_ in keys <==> at <= i)
    requires Least(keys, k)
    ensures k in keys && at < |latest| && latest[at] == bySeq[k] && latest[at].seq_ == k
    ensures forall i :: 0 <= i < |latest| ==> (latest[i].seq_ in keys - {k} <==> at + 1 <= i)
  {
    var i :| 0 <= i < |latest| && latest[i] == bySeq[k];
    assert at <= i;
    assert latest[at].seq_ in keys;
    assert k <= latest[at].seq_;
    assert i == at;
  }

  // ----- Segments ---------------------------------------------------------------------------------

  // Events grouped wherever the playhead keeps up with the microphone.
  function Segments(s: seq<Event>, policy: Policy): (groups: seq<seq<Event>>)
    requires s != []
    ensures groups != [] && groups[|groups| - 1] != [] && groups[|groups| - 1][|groups[|groups| - 1]| - 1] == s[|s| - 1]
    ensures forall i, e :: 0 <= i < |groups| && e in groups[i] ==> e in s
  {
    var n := |s| - 1;
    if n == 0 then [[s[0]]]
    else
      var before := Segments(s[..n], policy);
      var last := before[|before| - 1];
      assert s == s[..n] + [s[n]];
      if Steady(s[n - 1], s[n], policy) then before[..|before| - 1] + [last + [s[n]]] else before + [[s[n]]]
  }

  // Where the last segment starts.
  function LastStart(s: seq<Event>, policy: Policy): (k: nat)
    requires s != []
    ensures k < |s|
  {
    var n := |s| - 1;
    if n == 0 then 0 else if Steady(s[n - 1], s[n], policy) then LastStart(s[..n], policy) else n
  }

  lemma LastStep(s: seq<Event>, policy: Policy)
    requires |s| > 1
    ensures var n := |s| - 1;
            var before := Segments(s[..n], policy);
            if Steady(s[n - 1], s[n], policy)
            then Segments(s, policy) == before[..|before| - 1] + [before[|before| - 1] + [s[n]]]
                && LastStart(s, policy) == LastStart(s[..n], policy)
            else Segments(s, policy) == before + [[s[n]]] && LastStart(s, policy) == n
  {
    hide Steady;
  }

  // How the source tells a steady step from a seek.
  predicate KeepsUp(previous: Event, current: Event, policy: Policy)
    requires previous.mic != current.mic
  {
    var microphoneDelta := current.mic - previous.mic;
    var playheadDelta := current.playhead - previous.playhead;
    && playheadDelta > 0
    && Abs(playheadDelta as real / microphoneDelta as real - 1.0) * 1_000_000.0 <= policy.maxRatePpm
  }

  lemma KeepsUpIsSteady(previous: Event, current: Event, policy: Policy)
    requires previous.mic != current.mic
    ensures KeepsUp(previous, current, policy) <==> Steady(previous, current, policy)
  {
  }

  method GroupSegments(s: seq<Event>, policy: Policy) returns (segments: seq<seq<Event>>)
    requires s != [] && !MicStalls(s)
    ensures segments == Segments(s, policy)
  {
    segments := [[s[0]]];
    assert s[..1] == [s[0]] && segments == Segments(s[..1], policy);
    hide Segments, LastStart, Steady, KeepsUp;
    for i := 1 to |s|
      invariant segments == Segments(s[..i], policy)
    {
      var previous, current := s[i - 1], s[i];
      assert s[..i + 1][..i] == s[..i];
      LastStep(s[..i + 1], policy);
      KeepsUpIsSteady(previous, current, policy);
      if KeepsUp(previous, current, policy) {
        segments := segments[..|segments| - 1] + [segments[|segments| - 1] + [current]];
      } else {
        segments := segments + [[current]];
      }
    }
    assert s[..|s|] == s;
  }

  // The last group is the events from k on, with no seek after k and one at it.
  ghost predicate EndsAt(s: seq<Event>, policy: Policy, k: nat, groups: seq<seq<Event>>)
    requires k < |s|
  {
    && groups != [] && groups[|groups| - 1] == s[k..]
    && (forall i :: k < i < |s| ==> Steady(s[i - 1], s[i], policy))
    && (k > 0 ==> !Steady(s[k - 1], s[k], policy))
  }

  lemma EndsExtended(s: seq<Event>, policy: Policy, k: nat, groups: seq<seq<Event>>)
    requires |s| > 1 && k < |s| - 1 && EndsAt(s[..|s| - 1], policy, k, groups)
    requires Steady(s[|s| - 2], s[|s| - 1], policy)
    ensures EndsAt(s, policy, k, groups[..|groups| - 1] + [groups[|groups| - 1] + [s[|s| - 1]]])
  {
    hide Steady;
    var n := |s| - 1;
    assert s[..n][k..] + [s[n]] == s[k..];
    assert forall i :: 0 <= i < n ==> s[..n][i] == s[i];
  }

  lemma EndsAfresh(s: seq<Event>, policy: Policy, groups: seq<seq<Event>>)
    requires |s| > 1 && !Steady(s[|s| - 2], s[|s| - 1], policy)
    ensures EndsAt(s, policy, |s| - 1, groups + [[s[|s| - 1]]])
  {
    hide Steady;
    assert s[|s| - 1..] == [s[|s| - 1]];
  }

  lemma EndsAlone(s: seq<Event>, policy: Policy)
    requires |s| == 1
    ensures EndsAt(s, policy, LastStart(s, policy), Segments(s, policy))
  {
    assert s == [s[0]];
  }

  lemma {:induction false} LastSegment(s: seq<Event>, policy: Policy)
    requires s != []
    ensures EndsAt(s, policy, LastStart(s, policy), Segments(s, policy))
    decreases |s|
  {
    hide Steady, Segments, LastStart, EndsAt;
    var n := |s| - 1;
    if n == 0 {
      EndsAlone(s, policy);
    } else {
      LastStep(s, policy);
      LastSegment(s[..n], policy);
      if Steady(s[n - 1], s[n], policy) {
        EndsExtended(s, policy, LastStart(s[..n], policy), Segments(s[..n], policy));
      } else {
        EndsAfresh(s, policy, Segments(s[..n], policy));
      }
    }
  }

  predicate Together(groups: seq<seq<Event>>, a: Event, b: Event) {
    exists i :: 0 <= i < |groups| && a in groups[i] && b in groups[i]
  }

  ghost predicate NoSeek(s: seq<Event>, l: nat, r: nat, policy: Policy)
    requires r < |s|
  {
    forall k :: l < k <= r ==> Steady(s[k - 1], s[k], policy)
  }

  // Two events share a segment exactly when no seek lies between them.
  lemma {:induction false} TogetherIffNoSeek(s: seq<Event>, l: nat, r: nat, policy: Policy)
    requires AscendingMic(s) && l < r < |s|
    ensures Together(Segments(s, policy), s[l], s[r]) <==> NoSeek(s, l, r, policy)
    decreases |s|
  {
    hide Segments, NoSeek, Together;
    var n := |s| - 1;
    if r < n {
      SegmentsStep(s, policy);
      TogetherIffNoSeek(s[..n], l, r, policy);
      AppendKeepsTogether(Segments(s[..n], policy), Segments(s, policy), s[l], s[r], s[n]);
      NoSeekPrefix(s, l, r, policy);
    } else {
      TogetherWithLast(s, l, policy);
    }
  }

  lemma NoSeekPrefix(s: seq<Event>, l: nat, r: nat, policy: Policy)
    requires l < r < |s| - 1
    ensures NoSeek(s, l, r, policy) <==> NoSeek(s[..|s| - 1], l, r, policy)
  {
    hide Steady;
    assert forall i :: 0 <= i < |s| - 1 ==> s[..|s| - 1][i] == s[i];
  }

  lemma TogetherWithLast(s: seq<Event>, l: nat, policy: Policy)
    requires AscendingMic(s) && l < |s| - 1
    ensures Together(Segments(s, policy), s[l], s[|s| - 1]) <==> NoSeek(s, l, |s| - 1, policy)
  {
    hide Steady, Segments, LastStart;
    var n := |s| - 1;
    LastSegment(s, policy);
    NewIsLast(s, policy);
    var k, groups := LastStart(s, policy), Segments(s, policy);
    assert s[k..][n - k] == s[n];
    if l >= k {
      assert s[k..][l - k] == s[l];
    } else {
      assert s[l] !in s[k..];
    }
  }

  ghost predicate GrowsBy(before: seq<seq<Event>>, after: seq<seq<Event>>, x: Event) {
    || after == before + [[x]]
    || (before != [] && after == before[..|before| - 1] + [before[|before| - 1] + [x]])
  }

  lemma SegmentsStep(s: seq<Event>, policy: Policy)
    requires |s| > 1
    ensures GrowsBy(Segments(s[..|s| - 1], policy), Segments(s, policy), s[|s| - 1])
  {
  }

  lemma AppendKeepsTogether(before: seq<seq<Event>>, after: seq<seq<Event>>, a: Event, b: Event, x: Event)
    requires GrowsBy(before, after, x) && a != x && b != x
    ensures Together(before, a, b) <==> Together(after, a, b)
  {
    if Together(before, a, b) {
      var i :| 0 <= i < |before| && a in before[i] && b in before[i];
      assert a in after[i] && b in after[i];
    }
    if Together(after, a, b) {
      var i :| 0 <= i < |after| && a in after[i] && b in after[i];
      assert i < |before| && a in before[i] && b in before[i];
    }
  }

  // The newest event is in the last segment only.
  lemma NewIsLast(s: seq<Event>, policy: Policy)
    requires |s| > 1 && AscendingMic(s)
    ensures var groups := Segments(s, policy); forall i :: 0 <= i < |groups| - 1 ==> s[|s| - 1] !in groups[i]
  {
    hide Segments;
    SegmentsStep(s, policy);
    var before, x := Segments(s[..|s| - 1], policy), s[|s| - 1];
    assert x !in s[..|s| - 1];
    assert forall i :: 0 <= i < |before| ==> x !in before[i];
  }

  // ----- The events of the phrase's segment ----------------------------------------------------------

  ghost predicate IsSlice(g: seq<Event>, s: seq<Event>, a: nat) {
    a + |g| <= |s| && g == s[a..a + |g|]
  }

  ghost predicate AllSlices(groups: seq<seq<Event>>, s: seq<Event>) {
    forall i :: 0 <= i < |groups| ==> SomeSlice(groups[i], s)
  }

  ghost predicate SomeSlice(g: seq<Event>, s: seq<Event>) {
    exists a :: IsSlice(g, s, a)
  }

  lemma SliceGrows(g: seq<Event>, s: seq<Event>)
    requires s != [] && SomeSlice(g, s[..|s| - 1])
    ensures SomeSlice(g, s)
  {
    var a :| IsSlice(g, s[..|s| - 1], a);
    assert IsSlice(g, s, a);
  }

  lemma {:induction false} GroupsAreSlices(s: seq<Event>, policy: Policy)
    requires s != []
    ensures AllSlices(Segments(s, policy), s)
    decreases |s|
  {
    hide Segments, LastStart, Steady, SomeSlice;
    var n := |s| - 1;
    var groups := Segments(s, policy);
    LastSegment(s, policy);
    forall i | 0 <= i < |groups|
      ensures SomeSlice(groups[i], s)
    {
      if i == |groups| - 1 {
        SuffixIsSlice(s, LastStart(s, policy));
      } else if n > 0 {
        LastStep(s, policy);
        GroupsAreSlices(s[..n], policy);
        var before := Segments(s[..n], policy);
        assert groups[i] == before[i] && SomeSlice(before[i], s[..n]);
        SliceGrows(before[i], s);
      } else {
        OneSegment(s, policy);
      }
    }
  }

  lemma SuffixIsSlice(s: seq<Event>, a: nat)
    requires a <= |s|
    ensures SomeSlice(s[a..], s)
  {
    assert IsSlice(s[a..], s, a);
  }

  lemma OneSegment(s: seq<Event>, policy: Policy)
    requires |s| == 1
    ensures |Segments(s, policy)| == 1
  {
  }

  function Between(s: seq<Event>, lo: int, hi: int): (kept: seq<Event>) {
    if s == [] then []
    else
      var n := |s| - 1;
      Between(s[..n], lo, hi) + if lo <= s[n].mic <= hi then [s[n]] else []
  }

  // In an ascending list, what lies between two of its members is what stands between them.
  lemma {:induction false} BetweenIsSlice(s: seq<Event>, l: nat, r: nat)
    requires AscendingMic(s) && l <= r < |s|
    ensures Between(s, s[l].mic, s[r].mic) == s[l..r + 1]
    decreases |s|
  {
    hide AscendingMic, Between;
    var n := |s| - 1;
    var shorter := s[..n];
    PrefixAscends(s);
    LastIsHighest(s);
    BetweenStep(s, s[l].mic, s[r].mic);
    if r < n {
      BetweenIsSlice(shorter, l, r);
      assert shorter[l..r + 1] == s[l..r + 1];
    } else if l < n {
      BetweenIsSlice(shorter, l, n - 1);
      BetweenWider(shorter, s[l].mic, s[n - 1].mic, s[n].mic);
      assert s[l].mic <= s[n].mic;
      assert shorter[l..n] + [s[n]] == s[l..n + 1];
    } else {
      NoneBetween(shorter, s[n].mic);
      assert s[n..n + 1] == [s[n]];
    }
  }

  lemma BetweenStep(s: seq<Event>, lo: int, hi: int)
    requires s != []
    ensures var n := |s| - 1; Between(s, lo, hi) == if lo <= s[n].mic <= hi then
              Between(s[..n], lo, hi) + [s[n]] else Between(s[..n], lo, hi)
  {
  }

  lemma PrefixAscends(s: seq<Event>)
    requires AscendingMic(s) && s != []
    ensures AscendingMic(s[..|s| - 1])
  {
  }

  lemma LastIsHighest(s: seq<Event>)
    requires AscendingMic(s) && s != []
    ensures forall i :: 0 <= i < |s| - 1 ==> s[i].mic < s[|s| - 1].mic
    ensures |s| > 1 ==> forall i :: 0 <= i < |s| - 1 ==> s[i].mic <= s[|s| - 2].mic
  {
  }

  lemma {:induction false} BetweenWider(s: seq<Event>, lo: int, hi: int, higher: int)
    requires hi <= higher && forall i :: 0 <= i < |s| ==> s[i].mic <= hi
    ensures Between(s, lo, hi) == Between(s, lo, higher)
  {
    if s != [] {
      BetweenWider(s[..|s| - 1], lo, hi, higher);
    }
  }

  lemma {:induction false} NoneBetween(s: seq<Event>, at: int)
    requires forall i :: 0 <= i < |s| ==> s[i].mic < at
    ensures Between(s, at, at) == []
  {
    if s != [] {
      NoneBetween(s[..|s| - 1], at);
    }
  }

  lemma SliceOfSlice(s: seq<Event>, a: nat, n: nat, i: nat, j: nat)
    requires a + n <= |s| && i <= j <= n
    ensures s[a..a + n][i..j] == s[a + i..a + j]
  {
    var slice, whole := s[a..a + n][i..j], s[a + i..a + j];
    assert |slice| == |whole|;
    forall k | 0 <= k < j - i
      ensures slice[k] == whole[k]
    {
      assert slice[k] == s[a..a + n][i + k] == s[a + (i + k)];
    }
  }

  lemma SliceAscends(s: seq<Event>, g: seq<Event>, a: nat)
    requires AscendingMic(s) && IsSlice(g, s, a)
    ensures AscendingMic(g)
  {
    forall i, j | 0 <= i < j < |g| ensures g[i].mic < g[j].mic {
      assert g[i] == s[a + i] && g[j] == s[a + j];
    }
  }

  // In an ascending list a value stands in one place only.
  lemma PlaceInSlice(s: seq<Event>, g: seq<Event>, a: nat, l: nat) returns (i: nat)
    requires AscendingMic(s) && IsSlice(g, s, a) && l < |s| && s[l] in g
    ensures i < |g| && g[i] == s[l] && a + i == l
  {
    i :| 0 <= i < |g| && g[i] == s[l];
    assert g[i] == s[a + i];
  }

  lemma BetweenInSlice(s: seq<Event>, g: seq<Event>, a: nat, l: nat, r: nat)
    requires AscendingMic(s) && IsSlice(g, s, a) && l < r < |s| && s[l] in g && s[r] in g
    ensures Between(g, s[l].mic, s[r].mic) == s[l..r + 1]
  {
    hide AscendingMic, Between;
    var i := PlaceInSlice(s, g, a, l);
    var j := PlaceInSlice(s, g, a, r);
    SliceAscends(s, g, a);
    BetweenIsSlice(g, i, j);
    SliceOfSlice(s, a, |g|, i, j + 1);
  }

  // ----- The whole procedure ------------------------------------------------------------------------------

  method FindSegment(segments: seq<seq<Event>>, left: Event, right: Event) returns (found: bool, segment: seq<Event>)
    ensures found <==> Together(segments, left, right)
    ensures found ==> segment in segments && left in segment && right in segment
  {
    for i := 0 to |segments|
      invariant forall k :: 0 <= k < i ==> !(left in segments[k] && right in segments[k])
    {
      if left in segments[i] && right in segments[i] {
        return true, segments[i];
      }
    }
    found, segment := false, [];
  }

  method AllAgree(around: seq<Event>, anchor: Event, rate: int, policy: Policy) returns (ok: bool)
    requires RateOf(anchor) != 0.0
    ensures ok <==> !Contradicts(around, anchor, rate, policy)
  {
    hide Agrees;
    for i := 0 to |around|
      invariant forall k :: 0 <= k < i ==> Agrees(anchor, around[k], rate, policy)
    {
      if !Agrees(anchor, around[i], rate, policy) {
        return false;
      }
    }
    ok := true;
  }

  lemma SeeksIsNotNoSeek(s: seq<Event>, around: seq<Event>, l: nat, r: nat, policy: Policy)
    requires l < r < |s| && |around| == r - l + 1 && forall k :: 0 <= k < |around| ==> around[k] == s[l + k]
    ensures Seeks(around, policy) <==> !NoSeek(s, l, r, policy)
  {
    hide Steady;
    if NoSeek(s, l, r, policy) {
      forall k | 0 < k < |around|
        ensures Steady(around[k - 1], around[k], policy)
      {
        assert Steady(s[l + k - 1], s[l + k], policy);
      }
    }
    if !Seeks(around, policy) {
      forall k | l < k <= r
        ensures Steady(s[k - 1], s[k], policy)
      {
        assert Steady(around[k - l - 1], around[k - l], policy);
      }
    }
  }

  // Once the phrase is bracketed, its segment decides.
  lemma PlaceBracketed(phrase: Phrase, s: seq<Event>, policy: Policy)
    requires ValidPhrase(phrase) && forall e :: e in s ==> SmallDrift(e)
    requires !MixedRates(s, phrase.rate) && !TimeStalls(s) && !MicStalls(s) && Bracketed(s, phrase)
    ensures CountUpTo(s, phrase.start) <= CountUpTo(s, phrase.end - 1)
    ensures var around := Around(s, phrase);
            && Closest(around, phrase.start) in s
            && Place(phrase, s, policy) ==
               if FarFrom(around, phrase, policy) then Refused(AnchorTooFar)
               else if Seeks(around, policy) then Refused(SeekInside)
               else PlaceAt(phrase, around, Closest(around, phrase.start), policy)
  {
    hide CountUpTo, Seeks, Closest, PlaceAt, FarFrom, MixedRates, TimeStalls, MicStalls;
    AroundBrackets(phrase, s);
  }

  // Everything after the events have been selected, found in order and grouped.
  method PlaceSelected(phrase: Phrase, selected: seq<Event>, segments: seq<seq<Event>>, policy: Policy)
    returns (r: Result)
    requires ValidPhrase(phrase) && (forall e :: e in selected ==> SmallDrift(e)) && selected != []
    requires !MixedRates(selected, phrase.rate) && !TimeStalls(selected) && !MicStalls(selected)
    requires Bracketed(selected, phrase) && segments == Segments(selected, policy)
    ensures r == Place(phrase, selected, policy)
  {
    hide CountUpTo, Steady, Seeks, Limit, Compensated, Segments, Closest, Place, PlaceAt, FarFrom, MixedRates,
         TimeStalls, NoSeek, Together, Between, AllSlices, AscendingMic;
    PlaceBracketed(phrase, selected, policy);
    StepwiseAscends(selected);
    var l, h := CountUpTo(selected, phrase.start) - 1, CountUpTo(selected, phrase.end - 1);
    var left, right := selected[l], selected[h];
    ghost var around := Around(selected, phrase);
    assert around == selected[l..h + 1];
    FarFromEnds(around, phrase, policy);
    if FarFrom([left, right], phrase, policy) {
      return Refused(AnchorTooFar);
    }
    TogetherIffNoSeek(selected, l, h, policy);
    SeeksIsNotNoSeek(selected, around, l, h, policy);
    var found, segment := FindSegment(segments, left, right);
    if !found {
      return Refused(SeekInside);
    }
    GroupsAreSlices(selected, policy);
    SegmentIsSlice(segments, selected, segment, l, h);
    var phraseSegment := Between(segment, left.mic, right.mic);
    var anchor := Closest(phraseSegment, phrase.start);
    r := Anchored(phrase, phraseSegment, anchor, policy);
  }

  method Calibrate(phrase: Phrase, events: seq<Event>, policy: Policy) returns (r: Result)
    requires ValidPhrase(phrase) && ValidEvidence(events)
    ensures r == Calibration.CalibratePhrase(phrase, events, policy)
  {
    hide Latest, Holds, InSequence, AscendingSeq, CountUpTo, Seeks, Closest, PlaceAt, FarFrom, MixedRates, TimeStalls,
         MicStalls, Bracketed, Segments;
    LatestAscends(events);
    assert forall e :: e in events ==> SmallDrift(e);
    var bySeq := SelectLatest(events);
    var selected := InOrder(bySeq, Latest(events));
    LatestNonEmpty(events);
    if MixedRates(selected, phrase.rate) {
      return Refused(OtherRate);
    }
    if TimeStalls(selected) {
      return Refused(TimeNotIncreasing);
    }
    if MicStalls(selected) {
      return Refused(MicNotIncreasing);
    }
    var segments := GroupSegments(selected, policy);
    if !Bracketed(selected, phrase) {
      return Refused(NotBracketed);
    }
    r := PlaceSelected(phrase, selected, segments, policy);
  }

  lemma LatestNonEmpty(events: seq<Event>)
    requires events != []
    ensures Latest(events) != []
  {
  }

  lemma FarFromEnds(around: seq<Event>, phrase: Phrase, policy: Policy)
    requires |around| >= 2
    ensures FarFrom(around, phrase, policy) <==> FarFrom([around[0], around[|around| - 1]], phrase, policy)
  {
  }

  lemma SegmentIsSlice(segments: seq<seq<Event>>, s: seq<Event>, g: seq<Event>, l: nat, r: nat)
    requires AscendingMic(s) && AllSlices(segments, s) && g in segments && l < r < |s| && s[l] in g && s[r] in g
    ensures Between(g, s[l].mic, s[r].mic) == s[l..r + 1]
  {
    assert SomeSlice(g, s);
    var a :| IsSlice(g, s, a);
    BetweenInSlice(s, g, a, l, r);
  }

  method Anchored(phrase: Phrase, around: seq<Event>, anchor: Event, policy: Policy) returns (r: Result)
    requires SmallDrift(anchor)
    ensures r == PlaceAt(phrase, around, anchor, policy)
  {
    hide Limit, Agrees, Compensated, ExceedsBudget, Contradicts;
    if Abs(anchor.drift) > policy.maxDrift {
      return Refused(TooMuchDrift);
    }
    var ok := AllAgree(around, anchor, phrase.rate, policy);
    if !ok {
      return Refused(Contradicted);
    }
    if ExceedsBudget(phrase, anchor, policy) {
      return Refused(Error.OverBudget);
    }
    var reference := Round(Compensated(anchor, phrase.start));
    if reference < 0 {
      return Refused(BeforeTimeline);
    }
    r := Placed(reference, anchor);
  }

  // ----- The phrase's frames on the timeline ------------------------------------------------------------------

  // Frames before the song are skipped; the first one past its end stops the loop.
  function Timeline(reference: int, offsets: seq<int>, duration: int): (indices: seq<int>) {
    if offsets == [] then []
    else
      var x := reference + offsets[0];
      if x < 0 then Timeline(reference, offsets[1..], duration)
      else if x >= duration then []
      else [x] + Timeline(reference, offsets[1..], duration)
  }

  method BuildTimeline(reference: int, offsets: seq<int>, duration: int) returns (indices: seq<int>)
    ensures indices == Timeline(reference, offsets, duration)
  {
    indices := [];
    for i := 0 to |offsets|
      invariant indices + Timeline(reference, offsets[i..], duration) == Timeline(reference, offsets, duration)
    {
      assert offsets[i..][1..] == offsets[i + 1..];
      var x := reference + offsets[i];
      if x < 0 {
        continue;
      }
      if x >= duration {
        break;
      }
      indices := indices + [x];
    }
  }

  predicate Contiguous(offsets: seq<int>, hop: int) {
    forall i :: 0 < i < |offsets| ==> offsets[i] - offsets[i - 1] == hop
  }

  // The indices are a prefix of the shifted offsets, and stop only at the song's end.
  ghost predicate Shifted(indices: seq<int>, reference: int, offsets: seq<int>, duration: int) {
    && |indices| <= |offsets|
    && (forall i :: 0 <= i < |indices| ==> indices[i] == reference + offsets[i] && 0 <= indices[i] < duration)
    && (|indices| < |offsets| ==> reference + offsets[|indices|] >= duration)
  }

  lemma {:induction false} TimelineIs(reference: int, offsets: seq<int>, hop: int, duration: int)
    requires hop > 0 && Contiguous(offsets, hop) && (offsets != [] ==> reference + offsets[0] >= 0)
    ensures Shifted(Timeline(reference, offsets, duration), reference, offsets, duration)
    ensures Contiguous(Timeline(reference, offsets, duration), hop)
    decreases |offsets|
  {
    hide Contiguous, Shifted;
    if offsets == [] || reference + offsets[0] >= duration {
      NothingShifted(reference, offsets, hop, duration);
    } else {
      var rest := offsets[1..];
      ContiguousTail(offsets, hop);
      TimelineIs(reference, rest, hop, duration);
      ShiftedMore(Timeline(reference, rest, duration), reference, offsets, hop, duration);
    }
  }

  lemma NothingShifted(reference: int, offsets: seq<int>, hop: int, duration: int)
    requires offsets == [] || reference + offsets[0] >= duration
    ensures Shifted([], reference, offsets, duration) && Contiguous([], hop)
  {
  }

  lemma ShiftedMore(more: seq<int>, reference: int, offsets: seq<int>, hop: int, duration: int)
    requires offsets != [] && Contiguous(offsets, hop) && 0 <= reference + offsets[0] < duration
    requires Shifted(more, reference, offsets[1..], duration)
    ensures Shifted([reference + offsets[0]] + more, reference, offsets, duration)
    ensures Contiguous([reference + offsets[0]] + more, hop)
  {
    var all := [reference + offsets[0]] + more;
    forall i | 0 <= i < |all| ensures all[i] == reference + offsets[i] && 0 <= all[i] < duration {
      if i > 0 {
        assert more[i - 1] == reference + offsets[1..][i - 1];
      }
    }
  }

  lemma ContiguousTail(offsets: seq<int>, hop: int)
    requires offsets != [] && Contiguous(offsets, hop)
    ensures Contiguous(offsets[1..], hop)
    ensures |offsets| > 1 ==> offsets[1..][0] == offsets[0] + hop
  {
  }

  ghost predicate NearlyPlaced(phrase: Phrase, anchor: Event, policy: Policy, index: int, offset: int)
    requires RateOf(anchor) > 0.0
  {
    Abs(index as real - Compensated(anchor, phrase.start + offset)) <=
        0.5 + Limit(policy.maxErrorMs, phrase.rate) / RateOf(anchor)
  }

  lemma PlacedNearly(phrase: Phrase, events: seq<Event>, policy: Policy, offset: int)
    requires ValidPhrase(phrase) && ValidEvidence(events) && 0 <= offset <= phrase.end - phrase.start
    requires Calibration.CalibratePhrase(phrase, events, policy).Placed?
    ensures var p := Calibration.CalibratePhrase(phrase, events, policy);
            p.reference >= 0 && RateOf(p.anchor) > 0.0
                && NearlyPlaced(phrase, p.anchor, policy, p.reference + offset, offset)
  {
    hide Latest, Place, NearlyPlaced, RateOf, Surrounds, Bracketed, Around, InSequence, CountUpTo, Compensated,
         ExceedsBudget;
    LatestAscends(events);
    assert forall e :: e in events ==> SmallDrift(e);
    PlacedSurrounds(phrase, Latest(events), policy);
    PlaceNearly(phrase, Latest(events), policy, offset);
  }

  lemma PlaceNearly(phrase: Phrase, s: seq<Event>, policy: Policy, offset: int)
    requires ValidPhrase(phrase) && (forall e :: e in s ==> SmallDrift(e)) && 0 <= offset <= phrase.end - phrase.start
    requires Place(phrase, s, policy).Placed? && RateOf(Place(phrase, s, policy).anchor) > 0.0
    ensures var p := Place(phrase, s, policy); NearlyPlaced(phrase, p.anchor, policy, p.reference + offset, offset)
  {
    hide Place, RateOf, Compensated, Limit;
    PlacedWithinBudget(phrase, s, policy, offset);
  }

  // Every frame that reaches the scorer is inside the song and within the error budget
  // of where the microphone says it belongs; there is none exactly when the phrase
  // starts after the song has ended.
  lemma FramesWithinBudget(phrase: Phrase, events: seq<Event>, policy: Policy, offsets: seq<int>, duration: int)
    requires ValidPhrase(phrase) && ValidEvidence(events) && ValidPolicy(policy) && duration > 0
    requires Calibration.CalibratePhrase(phrase, events, policy).Placed?
    requires offsets != [] && offsets[0] == 0 && Contiguous(offsets, policy.hop)
    requires forall i :: 0 <= i < |offsets| ==> 0 <= offsets[i] && offsets[i] + policy.hop <= phrase.end - phrase.start
    ensures var p := Calibration.CalibratePhrase(phrase, events, policy);
            var frames := Timeline(p.reference, offsets, duration);
            && RateOf(p.anchor) > 0.0 && Contiguous(frames, policy.hop) && |frames| <= |offsets|
            && (frames == [] <==> p.reference >= duration)
            && forall i :: 0 <= i < |frames| ==>
                 0 <= frames[i] < duration && NearlyPlaced(phrase, p.anchor, policy, frames[i], offsets[i])
  {
    hide Calibration.CalibratePhrase, NearlyPlaced, ValidEvidence, RateOf;
    var p := Calibration.CalibratePhrase(phrase, events, policy);
    PlacedNearly(phrase, events, policy, 0);
    TimelineIs(p.reference, offsets, policy.hop, duration);
    forall i | 0 <= i < |offsets|
      ensures NearlyPlaced(phrase, p.anchor, policy, p.reference + offsets[i], offsets[i])
    {
      PlacedNearly(phrase, events, policy, offsets[i]);
    }
  }
}
