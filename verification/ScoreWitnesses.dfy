// Valid input that the scorer raises on.
//
// A song of `n` overlapping regions, every one of which earns corrections.  With one each
// the score fails from 10,001 regions on; with four each from 2,501 on, so the bound of
// `ScoreIsValid` is the best one in the number of regions.
module ScoreWitnesses {
  import opened Options
  import opened Reals
  import opened Stats
  import opened ScoreContracts
  import opened ScoreFrames
  import opened ScorePhrase
  import Detrend
  import Matching

  const RATE: int := 8_000
  const TARGET: real := 440.0

  function RegionOf(i: nat, end: int): Region {
    Region(i, 0, end, TARGET, 1.0, 1.0, false)
  }

  function Regions(n: nat, end: int): (regions: seq<Region>)
    ensures |regions| == n
  {
    seq(n, i requires 0 <= i < n => RegionOf(i, end))
  }

  function Song(n: nat, end: int): Manifest {
    Manifest(0, 0, CanonicalNotes, [Notes], RATE, 8_000, Accepted, 1.0, false, Regions(n, end), 0, POLICY_VERSION, 0)
  }

  function Sung(hop: int, frames: seq<Frame>): Features {
    Features(0, 0, 0, RATE, hop, frames, 0, POLICY_VERSION, 0)
  }

  const REQUEST: Request := Request(true, 0, POLICY_VERSION, true, None)

  lemma SongIsValid(n: nat, end: int)
    requires 0 < n <= 100_000 && 0 < end <= 8_000
    ensures ValidManifest(Song(n, end))
  {
  }

  // ----- What n alike regions add up to ---------------------------------------------------

  function CorrectionsOf(a: Assessment): seq<Correction> {
    match a
    case Missed(_, _, c) => [c]
    case Resolved(_, _, _, _, _, _, corrections) => corrections
    case _ => []
  }

  lemma CountAdds(t: Tally, r: Region, expected: int, a: Assessment)
    requires ValidRegion(r) && CorrectionsOf(a) != []
    ensures var after := Count(t, r, expected, a);
            after.corrections == t.corrections + CorrectionsOf(a) && after.assessed > t.assessed
  {
  }

  lemma {:induction false} TallyCounts(m: Manifest, u: Features, regions: seq<Region>, tools: Tools, k: nat)
    requires u.hop > 0 && u.rate > 0 && k > 0
    requires forall i :: 0 <= i < |regions| ==>
               ValidRegion(regions[i]) && |CorrectionsOf(Assess(m, u, regions[i], tools))| == k
    ensures var t := TallyOf(m, u, regions, tools);
            |t.corrections| == k * |regions| && t.assessed >= |regions|
    decreases |regions|
  {
    hide Assess, Expected, Count, CorrectionsOf, ValidRegion;
    if regions == [] {
    } else {
      var n := |regions| - 1;
      TallyCounts(m, u, regions[..n], tools, k);
      CountAdds(TallyOf(m, u, regions[..n], tools), regions[n], Expected(regions[n], u.hop),
                Assess(m, u, regions[n], tools));
    }
  }

  lemma SplitsLast<T>(s: seq<T>)
    requires s != []
    ensures s == s[..|s| - 1] + [s[|s| - 1]]
  {
  }

  lemma KeepLast(which: Frame -> bool, frames: seq<Frame>)
    requires frames != [] && which(frames[|frames| - 1])
    ensures Keep(which, frames) == Keep(which, frames[..|frames| - 1]) + [frames[|frames| - 1]]
  {
  }

  lemma {:induction false} KeepAll(which: Frame -> bool, frames: seq<Frame>)
    requires forall i :: 0 <= i < |frames| ==> which(frames[i])
    ensures Keep(which, frames) == frames
  {
    if frames == [] {
    } else {
      hide Keep;
      var n := |frames| - 1;
      KeepAll(which, frames[..n]);
      KeepLast(which, frames);
      SplitsLast(frames);
    }
  }

  lemma KeepNone(which: Frame -> bool, frames: seq<Frame>)
    requires forall f :: f in frames ==> !which(f)
    ensures Keep(which, frames) == []
  {
    var kept := Keep(which, frames);
    assert forall i :: 0 <= i < |kept| ==> kept[i] in kept;
  }

  lemma SelectedLast(regions: seq<Region>)
    requires regions != [] && Eligible(regions[|regions| - 1])
    ensures Selected(regions, None) == Selected(regions[..|regions| - 1], None) + [regions[|regions| - 1]]
  {
  }

  lemma {:induction false} AllSelected(regions: seq<Region>)
    requires forall i :: 0 <= i < |regions| ==> Eligible(regions[i])
    ensures Selected(regions, None) == regions
    decreases |regions|
  {
    hide Eligible;
    if regions == [] {
    } else {
      hide Selected;
      var n := |regions| - 1;
      AllSelected(regions[..n]);
      SelectedLast(regions);
      SplitsLast(regions);
    }
  }

  lemma {:induction false} AllCovered(regions: seq<Region>, u: Features)
    requires u.frames != []
    requires forall i :: 0 <= i < |regions| ==>
               u.frames[0].index <= regions[i].start < regions[i].end <= u.frames[|u.frames| - 1].index + u.hop
    ensures CoveredSamples(regions, u) == Samples(regions)
    decreases |regions|
  {
    if regions != [] {
      AllCovered(regions[..|regions| - 1], u);
    }
  }

  lemma NothingLeaks(u: Features, regions: seq<Region>)
    requires forall f :: f in u.frames ==> f.leakage == 0.0
    ensures Leakages(u, regions) == [] || Median(Leakages(u, regions)) <= MAX_LEAKAGE
  {
    hide Median;
    var kept := Keep(f => exists i :: 0 <= i < |regions| && Inside(f, regions[i]), u.frames);
    assert forall i :: 0 <= i < |kept| ==> kept[i] in kept;
    if kept != [] {
      MedianWithin(Leakages(u, regions), 0.0, 0.0);
    }
  }

  // A song of n regions with k corrections each is judged, and its score fails exactly
  // when that makes more than 10,000 corrections.
  lemma AlikeRegions(n: nat, end: int, u: Features, tools: Tools, k: nat)
    requires 0 < n <= 100_000 && 0 < end <= 8_000 && k > 0
    requires ValidFeatures(u) && u == Sung(u.hop, u.frames)
    requires u.frames[0].index == 0 && end <= u.frames[|u.frames| - 1].index + u.hop
    requires forall f :: f in u.frames ==> f.leakage == 0.0
    requires forall i :: 0 <= i < n ==> |CorrectionsOf(Assess(Song(n, end), u, RegionOf(i, end), tools))| == k
    ensures ValidManifest(Song(n, end))
    ensures ScorePhrase.ScorePhrase(Song(n, end), u, REQUEST, tools).Raised? <==> k * n > 10_000
    ensures k * n > 10_000 ==> ScorePhrase.ScorePhrase(Song(n, end), u, REQUEST, tools) == Raised(InvalidScore)
  {
    hide ValidFrame, Assess, CorrectionsOf, TallyOf, Selected, Leakages, Median, Covered, CoveredSamples, Samples;
    hide ScorePhrase.ScorePhrase, Faithful, ValidScore;
    var m, regions := Song(n, end), Regions(n, end);
    SongIsValid(n, end);
    AllSelected(regions);
    AllCovered(regions, u);
    SamplesPositive(regions);
    NothingLeaks(u, regions);
    TallyCounts(m, u, regions, tools, k);
    ScoreIsValid(m, u, REQUEST, tools);
    WholeRatio(Samples(regions));
  }

  lemma WholeRatio(n: int)
    requires n > 0
    ensures ScorePhrase.Ratio(n, n) == 1.0
  {
    CancelProduct(1.0, n as real);
  }

  // ----- One correction each: a silent frame -----------------------------------------------

  const SILENCE: Frame := Frame(0, false, None, 0.0, -160.0, 0.0)

  const SILENT: Features := Sung(1, [SILENCE])

  lemma SilentIsValid()
    ensures ValidFeatures(SILENT)
  {
  }

  lemma HearsSilence(m: Manifest, i: nat, tools: Tools)
    ensures Hear(m, SILENT, RegionOf(i, 1), tools) == Heard(1, [SILENCE], [SILENCE], [], [])
  {
    hide Keep, Window;
    var r := RegionOf(i, 1);
    KeepAll(f => Inside(f, r), [SILENCE]);
    KeepAll((f: Frame) => f.leakage <= MAX_LEAKAGE, [SILENCE]);
    KeepNone((f: Frame) => f.voiced, [SILENCE]);
    KeepNone(f => CountsForTiming(f, r, Window(TIMING_SEARCH_WINDOW_MS, RATE), m.regions, tools.cents), [SILENCE]);
  }

  lemma MissesSilence(n: nat, i: nat, tools: Tools)
    ensures |CorrectionsOf(Assess(Song(n, 1), SILENT, RegionOf(i, 1), tools))| == 1
  {
    hide Hear, CorrectionOf, MetricOf, Median;
    HearsSilence(Song(n, 1), i, tools);
    MedianWithin(Each([SILENCE], (f: Frame) => f.energy), -160.0, -160.0);
  }

  // Missed notes alone: 10,001 of them are one correction too many.
  lemma MissedNotesFail(n: nat, tools: Tools)
    requires 0 < n <= 100_000
    ensures ValidManifest(Song(n, 1)) && ValidFeatures(SILENT)
    ensures ScorePhrase.ScorePhrase(Song(n, 1), SILENT, REQUEST, tools).Raised? <==> n > 10_000
    ensures n > 10_000 ==> ScorePhrase.ScorePhrase(Song(n, 1), SILENT, REQUEST, tools) == Raised(InvalidScore)
  {
    hide Assess, CorrectionsOf, ScorePhrase.ScorePhrase;
    SilentIsValid();
    forall i | 0 <= i < n
      ensures |CorrectionsOf(Assess(Song(n, 1), SILENT, RegionOf(i, 1), tools))| == 1
    {
      MissesSilence(n, i, tools);
    }
    AlikeRegions(n, 1, SILENT, tools, 1);
  }

  // ----- Four corrections each: an octave high, wavering, and right only after the end ------

  // Nine frames in the region an octave too high, the middle one two octaves, and a tenth
  // after its end at the pitch asked for.
  function FrameOf(i: nat): Frame {
    var f0 := if i == 9 then TARGET else if i == 4 then 4.0 * TARGET else 2.0 * TARGET;
    Frame(800 * i, true, Some(f0), 1.0, -20.0, 0.0)
  }

  const HEARD: seq<Frame> := seq(9, i requires 0 <= i < 9 => FrameOf(i))

  const LATE: Features := Sung(800, HEARD + [FrameOf(9)])

  const CONTOUR: seq<real> := [1200.0, 1200.0, 1200.0, 1200.0, 2400.0, 1200.0, 1200.0, 1200.0, 1200.0]

  // The population standard deviation: its square is the mean squared distance from the mean.
  ghost predicate Deviates(deviation: DeviationOf, values: seq<real>)
    requires values != []
  {
    var apart := seq(|values|, i requires 0 <= i < |values| => values[i] - Detrend.MeanOf(values));
    deviation(values) >= 0.0 && Mul(Sq(deviation(values)), |values| as real) == Detrend.Dot(apart, apart, |values|)
  }

  // What the logarithm and the square root give where the witness needs them.
  ghost predicate Measures(tools: Tools) {
    && tools.cents(TARGET, TARGET) == 0.0
    && tools.cents(2.0 * TARGET, TARGET) == 1200.0
    && tools.cents(4.0 * TARGET, TARGET) == 2400.0
    && Deviates(tools.deviation, Detrend.LinearDetrend(CONTOUR))
  }

  lemma LateIsValid()
    ensures ValidFeatures(LATE) && |LATE.frames| == 10
    ensures LATE.frames[0].index == 0 && LATE.frames[9].index == 7_200
    ensures forall f :: f in LATE.frames ==> f.leakage == 0.0
  {
  }

  lemma KeepsHeard(r: Region)
    requires r.start == 0 && r.end == 7_200
    ensures Keep(f => Inside(f, r), LATE.frames) == HEARD
  {
    KeepAll(f => Inside(f, r), HEARD);
    assert LATE.frames[..9] == HEARD;
  }

  lemma SearchWindow()
    ensures Window(TIMING_SEARCH_WINDOW_MS, RATE) == 2_000
  {
  }

  lemma TimedAfter(n: nat, i: nat, tools: Tools)
    requires Measures(tools)
    ensures TimingFrames(LATE, RegionOf(i, 7_200), Regions(n, 7_200), tools.cents) == [FrameOf(9)]
  {
    hide Deviates, Window;
    var r, regions := RegionOf(i, 7_200), Regions(n, 7_200);
    var window := Window(TIMING_SEARCH_WINDOW_MS, RATE);
    SearchWindow();
    var counts := f => CountsForTiming(f, r, window, regions, tools.cents);
    KeepNone(counts, HEARD);
    assert LATE.frames[..9] == HEARD && LATE.frames[9] == FrameOf(9);
    assert !BelongsElsewhere(FrameOf(9), r, regions);
    assert TimingCandidates(LATE, r, regions, tools.cents) == [FrameOf(9)];
    OneRun(FrameOf(9), Window(TIMING_MAX_GAP_MS, RATE), r, LATE.hop);
  }

  lemma OneRun(f: Frame, maxGap: int, r: Region, hop: int)
    ensures BestRun(Runs([f], maxGap), r, hop) == [f]
  {
    assert [f][..0] == [];
    assert Runs([f], maxGap) == [[f]];
  }

  lemma HearsLate(n: nat, i: nat, tools: Tools)
    requires Measures(tools)
    ensures Hear(Song(n, 7_200), LATE, RegionOf(i, 7_200), tools) == Heard(9, HEARD, HEARD, HEARD, [FrameOf(9)])
  {
    hide Measures, Keep, TimingFrames;
    KeepsHeard(RegionOf(i, 7_200));
    KeepAll((f: Frame) => f.leakage <= MAX_LEAKAGE, HEARD);
    KeepAll((f: Frame) => f.voiced, HEARD);
    TimedAfter(n, i, tools);
    assert Expected(RegionOf(i, 7_200), 800) == 9;
  }

  lemma HeardErrors(i: nat, tools: Tools)
    requires Measures(tools)
    ensures PitchErrors(RegionOf(i, 7_200), HEARD, tools.cents) == CONTOUR
  {
    hide Deviates;
  }

  lemma QuantizeOctave()
    ensures Quantize(1200.0) == 1200.0
  {
  }

  lemma OctaveHigh(r: Region, confidence: real, coverage: real, where_: Evidence)
    ensures |PitchCorrections(r, Quantize(Median(CONTOUR)), confidence, coverage, where_)| == 1
  {
    hide Median, Quantize, MetricOf, CorrectionOf, PitchKind;
    MedianWithin(CONTOUR, 1200.0, 2400.0);
    QuantizeMonotone(1200.0, Median(CONTOUR));
    QuantizeOctave();
    PitchKindIs(Quantize(Median(CONTOUR)));
  }

  lemma LateAndShort(i: nat, confidence: real, coverage: real, where_: Evidence)
    ensures var timing := TimingOf(RegionOf(i, 7_200), [FrameOf(9)], LATE);
            |TimingCorrections(RegionOf(i, 7_200), timing, confidence, coverage, where_)| == 2
  {
    hide TimingCorrection;
    var timing := TimingOf(RegionOf(i, 7_200), [FrameOf(9)], LATE);
    assert timing == Some(Timing(900.0, -800.0));
  }

  // A line cannot follow a contour with a peak: one residual at least is large.
  lemma PeakRemains(s: real, c: real)
    ensures var r := Detrend.Residuals(CONTOUR, Detrend.Centred(9), c, s);
            Abs(r[3]) >= 600.0 || Abs(r[4]) >= 600.0 || Abs(r[5]) >= 600.0
  {
    var x := Detrend.Centred(9);
    assert x[3] == -1.0 && x[4] == 0.0 && x[5] == 1.0;
    assert Mul(s, -1.0) == -s && Mul(s, 0.0) == 0.0 && Mul(s, 1.0) == s;
  }

  lemma LargeSquare(y: real)
    requires Abs(y) >= 600.0
    ensures Sq(y) >= 360_000.0
  {
    if Abs(y) > 600.0 {
      SquareGrows(600.0, Abs(y));
    }
    SqNegate(y);
  }

  lemma ContourSpread()
    ensures var r := Detrend.LinearDetrend(CONTOUR); Detrend.MeanOf(r) == 0.0 && Detrend.Dot(r, r, 9) >= 360_000.0
  {
    hide Detrend.Dot, Detrend.Total, Sq;
    var r := Detrend.LinearDetrend(CONTOUR);
    Detrend.ResidualsOrthogonal(CONTOUR);
    PeakRemains(Detrend.SlopeOf(CONTOUR), Detrend.MeanOf(CONTOUR));
    var k := if Abs(r[3]) >= 600.0 then 3 else if Abs(r[4]) >= 600.0 then 4 else 5;
    LargeSquare(r[k]);
    Detrend.DotSelf(r, 9, k);
  }

  lemma ContourDeviates(tools: Tools)
    requires Measures(tools)
    ensures tools.deviation(Detrend.LinearDetrend(CONTOUR)) > STABILITY_THRESHOLD
  {
    hide Detrend.Dot, Detrend.MeanOf, Detrend.LinearDetrend, Sq, Mul;
    var r := Detrend.LinearDetrend(CONTOUR);
    ContourSpread();
    var apart := seq(9, i requires 0 <= i < 9 => r[i] - Detrend.MeanOf(r));
    assert apart == r;
    var d := tools.deviation(r);
    assert Mul(Sq(d), 9.0) >= 360_000.0;
    if d <= STABILITY_THRESHOLD {
      SmallSquare(d);
    }
  }

  lemma SmallSquare(d: real)
    requires 0.0 <= d <= STABILITY_THRESHOLD
    ensures Mul(Sq(d), 9.0) < 360_000.0
  {
    if d < STABILITY_THRESHOLD {
      SquareGrows(d, STABILITY_THRESHOLD);
    }
  }

  lemma Unsteady(i: nat, tools: Tools, confidence: real, coverage: real, where_: Evidence)
    requires Measures(tools)
    ensures var tone := ToneOf(RegionOf(i, 7_200), LATE, HEARD, CONTOUR, tools.deviation);
            |ToneCorrections(RegionOf(i, 7_200), tone, confidence, coverage, where_)| == 1
  {
    hide Measures, Detrend.LinearDetrend, MetricOf, CorrectionOf, Crossings, Percentile, Median;
    ContourDeviates(tools);
    assert VibratoOf(HEARD, Detrend.LinearDetrend(CONTOUR), RATE, 800).None?;
  }

  lemma AllFour(n: nat, i: nat, tools: Tools)
    requires Measures(tools)
    ensures |CorrectionsOf(Assess(Song(n, 7_200), LATE, RegionOf(i, 7_200), tools))| == 4
  {
    hide Measures, Hear, PitchErrors, Median, Quantize, Confidence, Span;
    hide PitchCorrections, TimingOf, TimingCorrections, ToneOf, ToneCorrections;
    var r, h := RegionOf(i, 7_200), Heard(9, HEARD, HEARD, HEARD, [FrameOf(9)]);
    HearsLate(n, i, tools);
    KeepAll((f: Frame) => f.f0.Some? && f.f0Confidence >= MIN_F0_CONFIDENCE, HEARD);
    assert PitchFrames(h) == HEARD;
    HeardErrors(i, tools);
    var coverage, confidence, span := Min(ScorePhrase.Ratio(9, 9), 1.0), Confidence(r, HEARD), Span(HEARD, 800);
    OctaveHigh(r, confidence, coverage, span);
    LateAndShort(i, confidence, coverage, Span(h.timing, 800));
    Unsteady(i, tools, confidence, coverage, span);
  }

  // Four corrections a region: the score fails from 2,501 regions on, and the bound of
  // 2,500 regions below which it never fails cannot be raised.
  lemma FourEachFail(n: nat, tools: Tools)
    requires 0 < n <= 100_000 && Measures(tools)
    ensures ValidManifest(Song(n, 7_200)) && ValidFeatures(LATE)
    ensures ScorePhrase.ScorePhrase(Song(n, 7_200), LATE, REQUEST, tools).Raised? <==> n > 2_500
    ensures n > 2_500 ==> ScorePhrase.ScorePhrase(Song(n, 7_200), LATE, REQUEST, tools) == Raised(InvalidScore)
  {
    hide Assess, CorrectionsOf, ScorePhrase.ScorePhrase, Measures;
    LateIsValid();
    forall i | 0 <= i < n
      ensures |CorrectionsOf(Assess(Song(n, 7_200), LATE, RegionOf(i, 7_200), tools))| == 4
    {
      AllFour(n, i, tools);
    }
    AlikeRegions(n, 7_200, LATE, tools, 4);
  }
}
