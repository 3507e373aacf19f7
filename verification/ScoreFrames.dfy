// Which of a phrase's frames a region is judged on.
module ScoreFrames {
  import opened Options
  import opened Reals
  import opened Stats
  import opened ScoreContracts

  // The approved policy: any other is refused before scoring starts.
  const MIN_F0_CONFIDENCE: real := 0.80
  const MAX_LEAKAGE: real := 0.20
  const TIMING_PITCH_WINDOW: real := 175.0
  const TIMING_SEARCH_WINDOW_MS: int := 250
  const TIMING_MAX_GAP_MS: int := 30

  // Pitch distance in cents, which takes a logarithm.
  type CentsOf = (real, real) -> real

  predicate Inside(f: Frame, r: Region) {
    r.start <= f.index < r.end
  }

  // ----- Selecting frames --------------------------------------------------------------

  function Keep<T(!new)>(which: T -> bool, frames: seq<T>): (kept: seq<T>)
    ensures |kept| <= |frames|
    ensures forall f :: f in kept <==> f in frames && which(f)
  {
    if frames == [] then []
    else
      var n := |frames| - 1;
      assert frames == frames[..n] + [frames[n]];
      Keep(which, frames[..n]) + (if which(frames[n]) then [frames[n]] else [])
  }

  function Each<T>(frames: seq<T>, what: T -> real): (values: seq<real>)
    ensures |values| == |frames|
    ensures forall i :: 0 <= i < |frames| ==> values[i] == what(frames[i])
  {
    seq(|frames|, i requires 0 <= i < |frames| => what(frames[i]))
  }

  lemma {:induction false} KeepLess(which: Frame -> bool, other: Frame -> bool, frames: seq<Frame>)
    requires forall f :: which(f) ==> other(f)
    ensures |Keep(which, frames)| <= |Keep(other, frames)|
  {
    if frames != [] {
      KeepLess(which, other, frames[..|frames| - 1]);
    }
  }

  // Each frame at least `hop` samples after the one before.
  ghost predicate Spaced(frames: seq<Frame>, hop: int) {
    forall i, j :: 0 <= i < j < |frames| ==> frames[j].index >= frames[i].index + hop
  }

  lemma {:induction false} ContiguousIsSpaced(frames: seq<Frame>, hop: int)
    requires hop > 0 && forall i :: 0 < i < |frames| ==> frames[i].index - frames[i - 1].index == hop
    ensures Spaced(frames, hop)
  {
    if frames != [] {
      var n := |frames| - 1;
      ContiguousIsSpaced(frames[..n], hop);
      forall i, j | 0 <= i < j < |frames|
        ensures frames[j].index >= frames[i].index + hop
      {
        if j == n && i < n - 1 {
          assert frames[..n][n - 1].index >= frames[..n][i].index + hop;
        }
      }
    }
  }

  lemma {:induction false} KeepSpaced(which: Frame -> bool, frames: seq<Frame>, hop: int)
    requires Spaced(frames, hop)
    ensures Spaced(Keep(which, frames), hop)
  {
    if frames != [] {
      var n := |frames| - 1;
      var before := Keep(which, frames[..n]);
      KeepSpaced(which, frames[..n], hop);
      forall i | 0 <= i < |before|
        ensures frames[n].index >= before[i].index + hop
      {
        assert before[i] in before;
        assert before[i] in frames[..n];
        var k :| 0 <= k < n && frames[..n][k] == before[i];
        assert frames[k] == before[i];
      }
    }
  }

  lemma {:induction false} SpacedSpan(frames: seq<Frame>, hop: int, n: nat)
    requires Spaced(frames, hop) && hop > 0 && n < |frames|
    ensures frames[n].index - frames[0].index >= n * hop
  {
    if n > 0 {
      SpacedSpan(frames, hop, n - 1);
    }
  }

  // Frames a region can hold: its length in hops, rounded up.
  function Expected(r: Region, hop: int): (n: int)
    requires hop > 0
    ensures n >= 1
  {
    MaxInt(1, CeilDiv(r.end - r.start, hop))
  }

  function MaxInt(a: int, b: int): int { if a >= b then a else b }

  function MinInt(a: int, b: int): int { if a <= b then a else b }

  function CeilDiv(a: int, b: int): (c: int)
    requires b > 0
    ensures (c - 1) * b < a <= c * b
  {
    -((-a) / b)
  }

  lemma CeilDivBounds(n: int, a: int, b: int)
    requires b > 0 && (n - 1) * b < a
    ensures n <= CeilDiv(a, b)
  {
    var c := CeilDiv(a, b);
    if n > c {
      ScaleInt(c, n - 1, b);
    }
  }

  lemma ScaleInt(x: int, y: int, b: int)
    requires x <= y && b >= 0
    ensures x * b <= y * b
  {
  }

  // No region ever holds more frames than expected of it.
  lemma RegionHoldsExpected(u: Features, r: Region, frames: seq<Frame>)
    requires ValidFeatures(u) && r.start < r.end
    requires Spaced(frames, u.hop) && forall f :: f in frames ==> Inside(f, r)
    ensures |frames| <= Expected(r, u.hop)
  {
    if frames != [] {
      var n := |frames| - 1;
      SpacedSpan(frames, u.hop, n);
      assert frames[0] in frames && frames[n] in frames;
      CeilDivBounds(|frames|, r.end - r.start, u.hop);
    }
  }

  // ----- Timing frames ---------------------------------------------------------------------

  function Window(ms: int, rate: int): int {
    Round((ms * rate) as real / 1000.0)
  }

  predicate BelongsElsewhere(f: Frame, r: Region, regions: seq<Region>) {
    exists i :: 0 <= i < |regions| && regions[i].id != r.id && Inside(f, regions[i])
  }

  predicate Confident(f: Frame) {
    f.voiced && f.f0.Some? && f.f0Confidence >= MIN_F0_CONFIDENCE && f.leakage <= MAX_LEAKAGE
  }

  predicate CountsForTiming(f: Frame, r: Region, window: int, regions: seq<Region>, cents: CentsOf) {
    && r.start - window <= f.index < r.end + window
    && (Inside(f, r) || !BelongsElsewhere(f, r, regions))
    && Confident(f)
    && Abs(cents(f.f0.value, r.target)) <= TIMING_PITCH_WINDOW
  }

  function TimingCandidates(u: Features, r: Region, regions: seq<Region>, cents: CentsOf): seq<Frame> {
    Keep(f => CountsForTiming(f, r, Window(TIMING_SEARCH_WINDOW_MS, u.rate), regions, cents), u.frames)
  }

  // Frames grouped into runs without long gaps.
  function Runs(frames: seq<Frame>, maxGap: int): (runs: seq<seq<Frame>>)
    ensures (frames == [] <==> runs == []) && forall i :: 0 <= i < |runs| ==> runs[i] != []
    ensures runs != [] ==> runs[|runs| - 1][|runs[|runs| - 1]| - 1] == frames[|frames| - 1]
    ensures forall i, f :: 0 <= i < |runs| && f in runs[i] ==> f in frames
  {
    if frames == [] then []
    else
      var n := |frames| - 1;
      assert frames == frames[..n] + [frames[n]];
      var before := Runs(frames[..n], maxGap);
      if n > 0 && frames[n].index - frames[n - 1].index <= maxGap then
        before[..|before| - 1] + [before[|before| - 1] + [frames[n]]]
      else before + [[frames[n]]]
  }

  // Runs are ranked by frames inside the region, then length, then how near their middle
  // is to the region's, then how early they start.  Distances are doubled.
  datatype Rank = Rank(overlap: int, length: int, nearness: int, earliness: int)

  function RankOf(run: seq<Frame>, r: Region, hop: int): Rank
    requires run != []
  {
    var middle := run[0].index + run[|run| - 1].index + hop;
    Rank(|Keep(f => Inside(f, r), run)|, |run|, -AbsInt(middle - (r.start + r.end)), -run[0].index)
  }

  function AbsInt(x: int): int { if x >= 0 then x else -x }

  predicate Outranks(a: Rank, b: Rank) {
    a.overlap > b.overlap || (a.overlap == b.overlap &&
    (a.length > b.length || (a.length == b.length &&
    (a.nearness > b.nearness || (a.nearness == b.nearness && a.earliness > b.earliness)))))
  }

  // The first of the highest-ranked runs.
  function BestRun(runs: seq<seq<Frame>>, r: Region, hop: int): (best: seq<Frame>)
    requires runs != [] && forall i :: 0 <= i < |runs| ==> runs[i] != []
    ensures best in runs && forall i :: 0 <= i < |runs| ==> !Outranks(RankOf(runs[i], r, hop), RankOf(best, r, hop))
  {
    var n := |runs| - 1;
    assert runs == runs[..n] + [runs[n]];
    if n == 0 then runs[0]
    else
      var before := BestRun(runs[..n], r, hop);
      assert forall i :: 0 <= i < n ==> runs[..n][i] == runs[i];
      if Outranks(RankOf(runs[n], r, hop), RankOf(before, r, hop)) then runs[n] else before
  }

  function TimingFrames(u: Features, r: Region, regions: seq<Region>, cents: CentsOf): (frames: seq<Frame>)
    ensures forall f :: f in frames ==> f in TimingCandidates(u, r, regions, cents)
  {
    var candidates := TimingCandidates(u, r, regions, cents);
    if candidates == [] then []
    else BestRun(Runs(candidates, Window(TIMING_MAX_GAP_MS, u.rate)), r, u.hop)
  }

  // The same with the loops of the source.
  method CollectCandidates(u: Features, r: Region, regions: seq<Region>, cents: CentsOf) returns (output: seq<Frame>)
    ensures output == TimingCandidates(u, r, regions, cents)
  {
    var window := Window(TIMING_SEARCH_WINDOW_MS, u.rate);
    hide Window, BelongsElsewhere;
    output := [];
    for i := 0 to |u.frames|
      invariant output == Keep(f => CountsForTiming(f, r, window, regions, cents), u.frames[..i])
    {
      var f := u.frames[i];
      assert u.frames[..i + 1][..i] == u.frames[..i];
      if !(r.start - window <= f.index < r.end + window) {
        continue;
      }
      if !(r.start <= f.index < r.end) && BelongsElsewhere(f, r, regions) {
        continue;
      }
      if !f.voiced || f.f0.None? || f.f0Confidence < MIN_F0_CONFIDENCE || f.leakage > MAX_LEAKAGE {
        continue;
      }
      if Abs(cents(f.f0.value, r.target)) <= TIMING_PITCH_WINDOW {
        output := output + [f];
      }
    }
    assert u.frames[..|u.frames|] == u.frames;
  }

  method GroupRuns(output: seq<Frame>, maxGap: int) returns (runs: seq<seq<Frame>>)
    requires output != []
    ensures runs == Runs(output, maxGap)
  {
    runs := [[output[0]]];
    for i := 1 to |output|
      invariant runs == Runs(output[..i], maxGap)
    {
      var last := runs[|runs| - 1];
      assert output[..i + 1][..i] == output[..i];
      assert last[|last| - 1] == output[i - 1];
      if output[i].index - last[|last| - 1].index <= maxGap {
        runs := runs[..|runs| - 1] + [last + [output[i]]];
      } else {
        runs := runs + [[output[i]]];
      }
    }
    assert output[..|output|] == output;
  }

  method ComputeTimingFrames(u: Features, r: Region, regions: seq<Region>, cents: CentsOf) returns (frames: seq<Frame>)
    ensures frames == TimingFrames(u, r, regions, cents)
  {
    var output := CollectCandidates(u, r, regions, cents);
    if output == [] {
      return [];
    }
    var runs := GroupRuns(output, Window(TIMING_MAX_GAP_MS, u.rate));
    frames := BestRun(runs, r, u.hop);
  }

  // ----- Runs are made of the frames themselves, in order --------------------------------------

  ghost predicate AllSpaced(runs: seq<seq<Frame>>, hop: int) {
    forall i :: 0 <= i < |runs| ==> Spaced(runs[i], hop)
  }

  lemma SpacedExtends(run: seq<Frame>, f: Frame, hop: int)
    requires Spaced(run, hop) && forall g :: g in run ==> f.index >= g.index + hop
    ensures Spaced(run + [f], hop)
  {
    assert forall i :: 0 <= i < |run| ==> run[i] in run;
  }

  lemma LastIsLater(frames: seq<Frame>, hop: int)
    requires frames != [] && Spaced(frames, hop)
    ensures forall g :: g in frames[..|frames| - 1] ==> frames[|frames| - 1].index >= g.index + hop
    ensures Spaced(frames[..|frames| - 1], hop)
  {
  }

  lemma {:induction false} RunsSpaced(frames: seq<Frame>, maxGap: int, hop: int)
    requires Spaced(frames, hop)
    ensures AllSpaced(Runs(frames, maxGap), hop)
  {
    if frames != [] {
      var n := |frames| - 1;
      var f, before := frames[n], Runs(frames[..n], maxGap);
      LastIsLater(frames, hop);
      RunsSpaced(frames[..n], maxGap, hop);
      hide Spaced;
      SpacedAlone(f, hop);
      if n > 0 {
        SpacedExtends(before[|before| - 1], f, hop);
      }
    }
  }

  lemma SpacedAlone(f: Frame, hop: int)
    ensures Spaced([f], hop)
  {
  }

  // Timing frames are confident, in order and near the region's pitch.
  lemma TimingFramesAre(u: Features, r: Region, regions: seq<Region>, cents: CentsOf)
    requires ValidFeatures(u)
    ensures var frames := TimingFrames(u, r, regions, cents);
            && Spaced(frames, u.hop)
            && forall f :: f in frames ==>
                 f in u.frames && Confident(f) && Abs(cents(f.f0.value, r.target)) <= TIMING_PITCH_WINDOW
  {
    var candidates := TimingCandidates(u, r, regions, cents);
    ContiguousIsSpaced(u.frames, u.hop);
    KeepSpaced(f => CountsForTiming(f, r, Window(TIMING_SEARCH_WINDOW_MS, u.rate), regions, cents), u.frames, u.hop);
    RunsSpaced(candidates, Window(TIMING_MAX_GAP_MS, u.rate), u.hop);
  }
}
