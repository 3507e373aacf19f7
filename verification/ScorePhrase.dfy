// Scoring one phrase against its song's regions.
//
// The logarithm behind pitch differences and the square root behind the standard
// deviation are parameters; numbers are reals, and `Quantize` rounds to six decimals.
module ScorePhrase {
  import opened Options
  import opened Reals
  import opened Stats
  import opened ScoreContracts
  import opened ScoreFrames
  import Detrend
  import Matching

  const MIN_REFERENCE_CONFIDENCE: real := 0.80
  const MIN_MONOPHONIC_CONFIDENCE: real := 0.80
  const MIN_TIMELINE_COVERAGE: real := 0.80
  const MIN_PITCH_COVERAGE: real := 0.50
  const MISSED_VOICED_COVERAGE: real := 0.10
  const MISSED_MAX_ENERGY: real := -45.0
  const PITCH_TOLERANCE: real := 25.0
  const OCTAVE_TOLERANCE: real := 100.0
  const ONSET_TOLERANCE_MS: real := 80.0
  const DURATION_TOLERANCE_MS: real := 120.0
  const STABILITY_MIN_DURATION_MS: real := 800.0
  const STABILITY_THRESHOLD: real := 35.0
  const VIBRATO_MIN_DURATION_MS: real := 1000.0
  const VIBRATO_MIN_RATE: real := 3.0
  const VIBRATO_MAX_RATE: real := 9.0
  const VIBRATO_MIN_DEPTH: real := 15.0
  const VIBRATO_MAX_DEPTH: real := 120.0

  type DeviationOf = seq<real> -> real

  datatype Tools = Tools(cents: CentsOf, deviation: DeviationOf)

  function Ratio(n: int, d: int): real
    requires d != 0
  {
    n as real / d as real
  }

  function Ms(samples: int, rate: int): real
    requires rate > 0
  {
    (samples * 1000) as real / rate as real
  }

  // ----- What kind of pitch error it is --------------------------------------------------

  function PitchKind(error: real): Option<Matching.Kind> {
    var octave := Round(error / 1200.0);
    if octave != 0 && Abs(error - 1200.0 * octave as real) <= OCTAVE_TOLERANCE then Some(Matching.OctaveError)
    else if error >= PITCH_TOLERANCE then Some(Matching.Sharp)
    else if error <= -PITCH_TOLERANCE then Some(Matching.Flat)
    else None
  }

  ghost predicate NearOctave(error: real, k: int) {
    k != 0 && Abs(error - 1200.0 * k as real) <= OCTAVE_TOLERANCE
  }

  // Every error of the tolerance or more is reported, nothing smaller is, and an octave
  // error is one near a whole number of octaves other than none.
  lemma PitchKindIs(error: real)
    ensures PitchKind(error).None? <==> Abs(error) < PITCH_TOLERANCE
    ensures PitchKind(error) == Some(Matching.OctaveError)
            <==> exists k :: NearOctave(error, k)
    ensures PitchKind(error) == Some(Matching.Sharp) ==> error >= PITCH_TOLERANCE
    ensures PitchKind(error) == Some(Matching.Flat) ==> error <= -PITCH_TOLERANCE
    ensures PitchKind(error).Some? ==> PitchKind(error).value in {Matching.OctaveError, Matching.Sharp, Matching.Flat}
  {
    var octave := Round(error / 1200.0);
    assert PitchKind(error) == Some(Matching.OctaveError) ==> NearOctave(error, octave);
    if k :| NearOctave(error, k) {
      NearestOctave(error, k);
    }
  }

  lemma NearestOctave(error: real, k: int)
    requires Abs(error - 1200.0 * k as real) <= OCTAVE_TOLERANCE
    ensures Round(error / 1200.0) == k
  {
    var x := error / 1200.0;
    assert k as real - 0.1 < x < k as real + 0.1;
  }

  // ----- Vibrato ------------------------------------------------------------------------------

  // Times the residuals cross their middle, among the first n.
  function Crossings(residuals: seq<real>, centre: real, n: nat): (c: nat)
    requires n <= |residuals|
    ensures c <= n
  {
    if n < 2 then 0
    else Crossings(residuals, centre, n - 1) + if (residuals[n - 1] >= centre) != (residuals[n - 2] >= centre) then
      1 else 0
  }

  datatype Vibrato = Vibrato(rate: real, depth: real)

  function VibratoOf(frames: seq<Frame>, residuals: seq<real>, rate: int, hop: int): Option<Vibrato>
    requires rate > 0 && residuals != []
  {
    if |frames| < 8 then None
    else
      var duration := Ratio(frames[|frames| - 1].index - frames[0].index + hop, rate);
      if duration * 1000.0 < VIBRATO_MIN_DURATION_MS then None
      else
        var crossings := Crossings(residuals, Median(residuals), |residuals|);
        var r := if duration != 0.0 then crossings as real / (2.0 * duration) else 0.0;
        var depth := (Percentile(residuals, 0.95) - Percentile(residuals, 0.05)) / 2.0;
        if VIBRATO_MIN_RATE <= r <= VIBRATO_MAX_RATE && VIBRATO_MIN_DEPTH <= depth <= VIBRATO_MAX_DEPTH
        then Some(Vibrato(Quantize(r), Quantize(depth)))
        else None
  }

  // The depth is never negative, and what is reported is within the policy's bounds
  // even after rounding.
  lemma VibratoBounds(frames: seq<Frame>, residuals: seq<real>, rate: int, hop: int)
    requires rate > 0 && residuals != []
    ensures Percentile(residuals, 0.95) - Percentile(residuals, 0.05) >= 0.0
    ensures var v := VibratoOf(frames, residuals, rate, hop);
            v.Some? ==>
              && |frames| >= 8
              && VIBRATO_MIN_RATE <= v.value.rate <= VIBRATO_MAX_RATE
              && VIBRATO_MIN_DEPTH <= v.value.depth <= VIBRATO_MAX_DEPTH
  {
    hide Percentile, Crossings, Median;
    PercentileMonotone(residuals, 0.05, 0.95);
    QuantizeFixes();
    forall x, y: real | x <= y
      ensures Quantize(x) <= Quantize(y)
    {
      QuantizeMonotone(x, y);
    }
  }

  lemma QuantizeFixes()
    ensures Quantize(3.0) == 3.0 && Quantize(9.0) == 9.0 && Quantize(15.0) == 15.0 && Quantize(120.0) == 120.0
  {
  }

  // ----- One region ---------------------------------------------------------------------------

  function MetricOf(value: real, unit: MeasureUnit, confidence: real, coverage: real): Metric {
    Metric(Quantize(value), unit, Quantize(confidence), Quantize(coverage))
  }

  function CorrectionOf(r: Region, kind: Matching.Kind, severity: real, confidence: real,
                        observed: Option<Metric>, expected: Option<Metric>, user: Evidence): Correction
  {
    Correction(r.id, kind, r.start, r.end, Quantize(severity), Quantize(confidence), r.reference, observed, expected,
               [Evidence(r.start, r.end), user])
  }

  datatype LongTone = NotLong | Steady(deviation: real) | Wavering(vibrato: Vibrato)

  // What one region contributes.
  datatype Assessment =
    | Unheard
    | Unresolved(voiced: nat, blocked: bool)
    | Missed(voiced: nat, confidence: real, correction: Correction)
    | Resolved(voiced: nat, pitchCount: int, errors: seq<real>, confidence: real, timing: Option<Timing>,
               tone: LongTone,
               corrections: seq<Correction>)

  datatype Timing = Timing(onset: real, change: real)

  // What is heard of a region.
  datatype Heard = Heard(expected: int, frames: seq<Frame>, clean: seq<Frame>, voiced: seq<Frame>, timing: seq<Frame>)

  function Hear(m: Manifest, u: Features, r: Region, tools: Tools): (h: Heard)
    requires u.hop > 0
    ensures h.expected >= 1
  {
    var frames := Keep(f => Inside(f, r), u.frames);
    var clean := Keep((f: Frame) => f.leakage <= MAX_LEAKAGE, frames);
    var voiced := Keep((f: Frame) => f.voiced, clean);
    Heard(Expected(r, u.hop), frames, clean, voiced, TimingFrames(u, r, m.regions, tools.cents))
  }

  function CleanCoverage(h: Heard): real
    requires h.expected != 0
  {
    Min(Ratio(|h.clean|, h.expected), 1.0)
  }

  predicate Silent(h: Heard)
    requires h.expected != 0
  {
    && h.timing == [] && h.clean != [] && Median(Each(h.clean, (f: Frame) => f.energy)) <= MISSED_MAX_ENERGY
    && CleanCoverage(h) >= MIN_TIMELINE_COVERAGE
  }

  function MissedNote(r: Region, h: Heard): Assessment
    requires h.expected != 0
  {
    var confidence := Min(r.reference, CleanCoverage(h));
    Missed(|h.voiced|, confidence,
           CorrectionOf(r, Matching.Missed, 1.0, confidence, None, Some(MetricOf(r.target, Hertz, r.reference, 1.0)),
                        Evidence(r.start, r.end)))
  }

  predicate Enough(frames: seq<Frame>, expected: int): (enough: bool)
    requires expected != 0
    ensures enough ==> frames != []
  {
    assert Ratio(0, expected) == 0.0;
    Min(Ratio(|frames|, expected), 1.0) >= MIN_PITCH_COVERAGE
  }

  // The frames pitch is judged on: confident voiced ones, or failing that the timing frames.
  function PitchFrames(h: Heard): seq<Frame>
    requires h.expected != 0
  {
    var own := Keep((f: Frame) => f.f0.Some? && f.f0Confidence >= MIN_F0_CONFIDENCE, h.voiced);
    if !Enough(own, h.expected) && h.timing != [] then h.timing else own
  }

  // The frames judged all have a pitch, so that none is missing where errors are taken.
  lemma PitchFramesHavePitch(m: Manifest, u: Features, r: Region, tools: Tools)
    requires u.hop > 0
    ensures forall f :: f in PitchFrames(Hear(m, u, r, tools)) ==> f.f0.Some? && f.f0Confidence >= MIN_F0_CONFIDENCE
  {
    hide TimingFrames, Window;
    var h := Hear(m, u, r, tools);
    forall f | f in h.timing
      ensures f.f0.Some? && f.f0Confidence >= MIN_F0_CONFIDENCE
    {
      assert f in TimingCandidates(u, r, m.regions, tools.cents);
    }
  }

  function PitchErrors(r: Region, frames: seq<Frame>, cents: CentsOf): (errors: seq<real>)
    ensures |errors| == |frames|
  {
    Each(frames, (f: Frame) => if f.f0.Some? then cents(f.f0.value, r.target) else 0.0)
  }

  function Confidence(r: Region, frames: seq<Frame>): real
    requires frames != []
  {
    Min(r.reference, Median(Each(frames, (f: Frame) => f.f0Confidence)))
  }

  function Span(frames: seq<Frame>, hop: int): Evidence
    requires frames != []
  {
    Evidence(frames[0].index, frames[|frames| - 1].index + hop)
  }

  function PitchCorrections(r: Region, error: real, confidence: real, coverage: real,
                            where_: Evidence): (c: seq<Correction>)
  {
    match PitchKind(error)
    case None => []
    case Some(kind) =>
      [CorrectionOf(r, kind, if kind.OctaveError? then 1.0 else Min(Abs(error) / 200.0, 1.0), confidence,
                    Some(MetricOf(error, Cents, confidence, coverage)), Some(MetricOf(0.0, Cents, r.reference, 1.0)),
                        where_)]
  }

  function TimingOf(r: Region, frames: seq<Frame>, u: Features): Option<Timing>
    requires u.rate > 0
  {
    if frames == [] then None
    else
      var span := Span(frames, u.hop);
      Some(Timing(Ms(span.start - r.start, u.rate), Ms((span.end - span.start) - (r.end - r.start), u.rate)))
  }

  function TimingCorrection(r: Region, kind: Matching.Kind, offset: real, confidence: real, coverage: real,
                            where_: Evidence): Correction
  {
    CorrectionOf(r, kind, Min(Abs(offset) / 300.0, 1.0), confidence,
                 Some(MetricOf(offset, Milliseconds, confidence, coverage)),
                     Some(MetricOf(0.0, Milliseconds, 1.0, 1.0)), where_)
  }

  function TimingCorrections(r: Region, timing: Option<Timing>, confidence: real, coverage: real,
                             where_: Evidence): (c: seq<Correction>)
  {
    match timing
    case None => []
    case Some(t) =>
      (if Abs(t.onset) > ONSET_TOLERANCE_MS
       then [TimingCorrection(r, if t.onset < 0.0 then
                              Matching.Early else Matching.Late, t.onset, confidence, coverage, where_)] else [])
      + (if Abs(t.change) > DURATION_TOLERANCE_MS
         then [TimingCorrection(r, if t.change < 0.0 then
                                Matching.Short else Matching.Long, t.change, confidence, coverage, where_)] else [])
  }

  function ToneOf(r: Region, u: Features, frames: seq<Frame>, errors: seq<real>, deviation: DeviationOf): LongTone
    requires u.rate > 0
  {
    if Ms(r.end - r.start, u.rate) >= STABILITY_MIN_DURATION_MS && |errors| >= 8 then
      var residuals := Detrend.LinearDetrend(errors);
      match VibratoOf(frames, residuals, u.rate, u.hop)
      case Some(v) => Wavering(v)
      case None => Steady(deviation(residuals))
    else NotLong
  }

  function ToneCorrections(r: Region, tone: LongTone, confidence: real, coverage: real,
                           where_: Evidence): (c: seq<Correction>)
  {
    if tone.Steady? && tone.deviation > STABILITY_THRESHOLD then
      [CorrectionOf(r, Matching.Unstable, Min(0.25 + (tone.deviation - STABILITY_THRESHOLD) / 100.0, 1.0), confidence,
                    Some(MetricOf(tone.deviation, Cents, confidence, coverage)),
                    Some(MetricOf(STABILITY_THRESHOLD, Cents, 1.0, 1.0)), where_)]
    else []
  }

  function ResolvedRegion(u: Features, r: Region, h: Heard, frames: seq<Frame>, tools: Tools): Assessment
    requires u.rate > 0 && frames != [] && h.expected != 0
  {
    var coverage := Min(Ratio(|frames|, h.expected), 1.0);
    var errors := PitchErrors(r, frames, tools.cents);
    var confidence := Confidence(r, frames);
    var span := Span(frames, u.hop);
    var timing := TimingOf(r, h.timing, u);
    var tone := ToneOf(r, u, frames, errors, tools.deviation);
    Resolved(|h.voiced|, MinInt(|frames|, h.expected), errors, confidence, timing, tone,
             PitchCorrections(r, Quantize(Median(errors)), confidence, coverage, span)
             + TimingCorrections(r, timing, confidence, coverage, if h.timing == [] then
                                 span else Span(h.timing, u.hop))
             + ToneCorrections(r, tone, confidence, coverage, span))
  }

  function Assess(m: Manifest, u: Features, r: Region, tools: Tools): Assessment
    requires u.hop > 0 && u.rate > 0
  {
    hide Hear, ResolvedRegion, MissedNote, Silent, PitchFrames, Enough, CleanCoverage;
    var h := Hear(m, u, r, tools);
    if Ratio(|h.frames|, h.expected) < MIN_TIMELINE_COVERAGE then Unheard
    else if Ratio(|h.voiced|, h.expected) <= MISSED_VOICED_COVERAGE && Silent(h) then MissedNote(r, h)
    else if Ratio(|h.voiced|, h.expected) <= MISSED_VOICED_COVERAGE && !Enough(h.timing, h.expected) then
      Unresolved(|h.voiced|, CleanCoverage(h) < MIN_TIMELINE_COVERAGE)
    else
      var frames := PitchFrames(h);
      if !Enough(frames, h.expected) then Unresolved(|h.voiced|, false)
      else ResolvedRegion(u, r, h, frames, tools)
  }

  // ----- What every assessment satisfies ---------------------------------------------------------

  // At most one correction of each group, all of them valid and of this region.
  ghost predicate FineCorrections(r: Region, corrections: seq<Correction>) {
    && |corrections| <= 4
    && (forall i :: 0 <= i < |corrections| ==>
          ValidCorrection(corrections[i]) && corrections[i].region == r.id && corrections[i].start == r.start)
    && (forall i, j :: 0 <= i < j < |corrections| ==> corrections[i].kind != corrections[j].kind)
  }

  ghost predicate FineAssessment(r: Region, expected: int, a: Assessment) {
    match a
    case Unheard => true
    case Unresolved(voiced, _) => voiced <= expected
    case Missed(voiced, confidence, c) => voiced <= expected && Unit(confidence) && FineCorrections(r, [c])
    case Resolved(voiced, pitchCount, errors, confidence, _, _, corrections) =>
      voiced <= expected && 0 <= pitchCount <= expected && errors != [] && Unit(confidence)
          && FineCorrections(r, corrections)
  }

  lemma UnitMin(a: real, b: real)
    requires Unit(a) && b >= 0.0
    ensures Unit(Min(a, b)) && (b >= 0.0 ==> Unit(Min(b, 1.0)))
  {
  }

  lemma RatioSign(n: int, d: int)
    requires n >= 0 && d > 0
    ensures Ratio(n, d) >= 0.0 && (n <= d ==> Ratio(n, d) <= 1.0)
  {
    DivideSign(n as real, d as real);
    if n <= d {
      UnitRatio(n as real, d as real);
    }
  }

  lemma MetricIsValid(value: real, unit: MeasureUnit, confidence: real, coverage: real)
    requires Unit(confidence) && Unit(coverage)
    ensures ValidMetric(MetricOf(value, unit, confidence, coverage))
  {
    QuantizeUnit(confidence);
    QuantizeUnit(coverage);
  }

  lemma CorrectionIsValid(r: Region, kind: Matching.Kind, severity: real, confidence: real,
                          observed: Option<Metric>, expected: Option<Metric>, user: Evidence)
    requires ValidRegion(r) && Unit(severity) && Unit(confidence) && 0 <= user.start < user.end
    requires (observed.Some? ==> ValidMetric(observed.value)) && (expected.Some? ==> ValidMetric(expected.value))
    ensures var c := CorrectionOf(r, kind, severity, confidence, observed, expected, user);
            ValidCorrection(c) && c.region == r.id && c.start == r.start && c.kind == kind
  {
    hide Quantize;
    QuantizeUnit(severity);
    QuantizeUnit(confidence);
  }

  lemma PitchCorrectionsFine(r: Region, error: real, confidence: real, coverage: real, where_: Evidence)
    requires ValidRegion(r) && Unit(confidence) && Unit(coverage) && 0 <= where_.start < where_.end
    ensures var c := PitchCorrections(r, error, confidence, coverage, where_);
            FineCorrections(r, c) && |c| <= 1 && forall i :: 0 <= i < |c| ==>
              c[i].kind in {Matching.OctaveError, Matching.Sharp, Matching.Flat}
  {
    hide MetricOf, CorrectionOf, ValidCorrection, PitchKind;
    PitchKindIs(error);
    if PitchKind(error).Some? {
      MetricIsValid(error, Cents, confidence, coverage);
      MetricIsValid(0.0, Cents, r.reference, 1.0);
      var severity := if PitchKind(error).value.OctaveError? then 1.0 else Min(Abs(error) / 200.0, 1.0);
      CorrectionIsValid(r, PitchKind(error).value, severity, confidence,
                        Some(MetricOf(error, Cents, confidence, coverage)),
                            Some(MetricOf(0.0, Cents, r.reference, 1.0)), where_);
    }
  }

  lemma TimingCorrectionFine(r: Region, kind: Matching.Kind, offset: real, confidence: real, coverage: real,
                             where_: Evidence)
    requires ValidRegion(r) && Unit(confidence) && Unit(coverage) && 0 <= where_.start < where_.end
    ensures var c := TimingCorrection(r, kind, offset, confidence, coverage, where_);
            ValidCorrection(c) && c.region == r.id && c.start == r.start && c.kind == kind
  {
    hide MetricOf, CorrectionOf, ValidCorrection;
    MetricIsValid(offset, Milliseconds, confidence, coverage);
    MetricIsValid(0.0, Milliseconds, 1.0, 1.0);
    CorrectionIsValid(r, kind, Min(Abs(offset) / 300.0, 1.0), confidence,
                      Some(MetricOf(offset, Milliseconds, confidence, coverage)),
                          Some(MetricOf(0.0, Milliseconds, 1.0, 1.0)), where_);
  }

  lemma TimingCorrectionsFine(r: Region, timing: Option<Timing>, confidence: real, coverage: real, where_: Evidence)
    requires ValidRegion(r) && Unit(confidence) && Unit(coverage) && 0 <= where_.start < where_.end
    ensures var c := TimingCorrections(r, timing, confidence, coverage, where_);
            && FineCorrections(r, c) && |c| <= 2
            && forall i :: 0 <= i < |c| ==> c[i].kind in {Matching.Early, Matching.Late, Matching.Short, Matching.Long}
  {
    hide TimingCorrection, ValidCorrection;
    if timing.Some? {
      TimingCorrectionFine(r, if timing.value.onset < 0.0 then
                           Matching.Early else Matching.Late, timing.value.onset, confidence, coverage, where_);
      TimingCorrectionFine(r, if timing.value.change < 0.0 then
                           Matching.Short else Matching.Long, timing.value.change, confidence, coverage, where_);
    }
  }

  lemma ToneCorrectionsFine(r: Region, tone: LongTone, confidence: real, coverage: real, where_: Evidence)
    requires ValidRegion(r) && Unit(confidence) && Unit(coverage) && 0 <= where_.start < where_.end
    ensures var c := ToneCorrections(r, tone, confidence, coverage, where_);
            FineCorrections(r, c) && |c| <= 1 && forall i :: 0 <= i < |c| ==> c[i].kind == Matching.Unstable
  {
    hide MetricOf, CorrectionOf, ValidCorrection;
    if tone.Steady? && tone.deviation > STABILITY_THRESHOLD {
      MetricIsValid(tone.deviation, Cents, confidence, coverage);
      MetricIsValid(STABILITY_THRESHOLD, Cents, 1.0, 1.0);
      CorrectionIsValid(r, Matching.Unstable, Min(0.25 + (tone.deviation - STABILITY_THRESHOLD) / 100.0, 1.0),
                        confidence,
                        Some(MetricOf(tone.deviation, Cents, confidence, coverage)),
                            Some(MetricOf(STABILITY_THRESHOLD, Cents, 1.0, 1.0)), where_);
    }
  }

  lemma JoinCorrections(r: Region, pitch: seq<Correction>, timing: seq<Correction>, tone: seq<Correction>)
    requires FineCorrections(r, pitch) && |pitch| <= 1
    requires forall i :: 0 <= i < |pitch| ==> pitch[i].kind in {Matching.OctaveError, Matching.Sharp, Matching.Flat}
    requires FineCorrections(r, timing) && |timing| <= 2
    requires forall i :: 0 <= i < |timing| ==>
               timing[i].kind in {Matching.Early, Matching.Late, Matching.Short, Matching.Long}
    requires FineCorrections(r, tone) && |tone| <= 1
    requires forall i :: 0 <= i < |tone| ==> tone[i].kind == Matching.Unstable
    ensures FineCorrections(r, pitch + timing + tone)
  {
    hide ValidCorrection;
  }

  lemma HearFine(m: Manifest, u: Features, r: Region, tools: Tools)
    requires ValidFeatures(u) && ValidRegion(r)
    ensures var h := Hear(m, u, r, tools);
            && h.expected >= 1 && |h.voiced| <= |h.clean| <= |h.frames| <= h.expected
            && Spaced(h.voiced, u.hop) && Spaced(h.timing, u.hop)
            && (forall f :: f in h.voiced ==> f in u.frames)
            && (forall f :: f in h.timing ==> f in u.frames && Confident(f))
  {
    hide ValidFrame, Confident, Expected;
    var h := Hear(m, u, r, tools);
    ContiguousIsSpaced(u.frames, u.hop);
    KeepSpaced(f => Inside(f, r), u.frames, u.hop);
    KeepSpaced((f: Frame) => f.leakage <= MAX_LEAKAGE, h.frames, u.hop);
    KeepSpaced((f: Frame) => f.voiced, h.clean, u.hop);
    RegionHoldsExpected(u, r, h.frames);
    TimingFramesAre(u, r, m.regions, tools.cents);
  }

  lemma PitchFramesFine(u: Features, h: Heard)
    requires ValidFeatures(u) && h.expected >= 1
    requires Spaced(h.voiced, u.hop) && Spaced(h.timing, u.hop)
    requires (forall f :: f in h.voiced ==> f in u.frames) && (forall f :: f in h.timing ==> f in u.frames)
    ensures Spaced(PitchFrames(h), u.hop) && forall f :: f in PitchFrames(h) ==> f in u.frames
  {
    KeepSpaced((f: Frame) => f.f0.Some? && f.f0Confidence >= MIN_F0_CONFIDENCE, h.voiced, u.hop);
  }

  lemma SpanFine(u: Features, frames: seq<Frame>)
    requires ValidFeatures(u) && frames != [] && Spaced(frames, u.hop) && forall f :: f in frames ==> f in u.frames
    ensures 0 <= Span(frames, u.hop).start < Span(frames, u.hop).end
  {
    assert frames[0] in frames;
    assert frames[0] in u.frames;
    SpacedSpan(frames, u.hop, |frames| - 1);
  }

  lemma ConfidenceFine(u: Features, r: Region, frames: seq<Frame>)
    requires ValidFeatures(u) && ValidRegion(r) && frames != [] && forall f :: f in frames ==> f in u.frames
    ensures Unit(Confidence(r, frames))
  {
    hide Median;
    var values := Each(frames, (f: Frame) => f.f0Confidence);
    forall i | 0 <= i < |values|
      ensures 0.0 <= values[i] <= 1.0
    {
      assert frames[i] in frames;
      var k :| 0 <= k < |u.frames| && u.frames[k] == frames[i];
    }
    MedianWithin(values, 0.0, 1.0);
  }

  lemma ResolvedFine(m: Manifest, u: Features, r: Region, h: Heard, frames: seq<Frame>, tools: Tools)
    requires ValidFeatures(u) && ValidRegion(r) && h.expected >= 1 && |h.voiced| <= h.expected
    requires frames != [] && Spaced(frames, u.hop) && forall f :: f in frames ==> f in u.frames
    requires Spaced(h.timing, u.hop) && forall f :: f in h.timing ==> f in u.frames
    ensures FineAssessment(r, h.expected, ResolvedRegion(u, r, h, frames, tools))
  {
    hide ValidFrame, ValidRegion, Spaced, Confidence, PitchErrors, Quantize, Median, PitchCorrections,
         TimingCorrections, ToneCorrections, ToneOf, TimingOf, Span, FineCorrections;
    var coverage := Min(Ratio(|frames|, h.expected), 1.0);
    var errors := PitchErrors(r, frames, tools.cents);
    var confidence := Confidence(r, frames);
    var span, heard := Span(frames, u.hop), if h.timing == [] then Span(frames, u.hop) else Span(h.timing, u.hop);
    RatioSign(|frames|, h.expected);
    ConfidenceFine(u, r, frames);
    SpanFine(u, frames);
    if h.timing != [] {
      SpanFine(u, h.timing);
    }
    var pitch := PitchCorrections(r, Quantize(Median(errors)), confidence, coverage, span);
    var timing := TimingCorrections(r, TimingOf(r, h.timing, u), confidence, coverage, heard);
    var tone := ToneCorrections(r, ToneOf(r, u, frames, errors, tools.deviation), confidence, coverage, span);
    PitchCorrectionsFine(r, Quantize(Median(errors)), confidence, coverage, span);
    TimingCorrectionsFine(r, TimingOf(r, h.timing, u), confidence, coverage, heard);
    ToneCorrectionsFine(r, ToneOf(r, u, frames, errors, tools.deviation), confidence, coverage, span);
    JoinCorrections(r, pitch, timing, tone);
  }

  lemma MissedFine(r: Region, h: Heard)
    requires ValidRegion(r) && h.expected >= 1 && |h.voiced| <= h.expected
    ensures FineAssessment(r, h.expected, MissedNote(r, h))
  {
    hide MetricOf, CorrectionOf, ValidCorrection;
    RatioSign(|h.clean|, h.expected);
    var confidence := Min(r.reference, CleanCoverage(h));
    UnitMin(r.reference, CleanCoverage(h));
    MetricIsValid(r.target, Hertz, r.reference, 1.0);
    CorrectionIsValid(r, Matching.Missed, 1.0, confidence, None, Some(MetricOf(r.target, Hertz, r.reference, 1.0)),
                      Evidence(r.start, r.end));
  }

  lemma AssessFine(m: Manifest, u: Features, r: Region, tools: Tools)
    requires ValidFeatures(u) && ValidRegion(r)
    ensures FineAssessment(r, Expected(r, u.hop), Assess(m, u, r, tools))
  {
    hide Hear, ResolvedRegion, MissedNote, Silent, PitchFrames, Enough, CleanCoverage, FineCorrections, Spaced,
         ValidFrame, ValidRegion;
    var h := Hear(m, u, r, tools);
    HearFine(m, u, r, tools);
    HeardExpected(m, u, r, tools);
    MissedFine(r, h);
    PitchFramesFine(u, h);
    if Enough(PitchFrames(h), h.expected) {
      ResolvedFine(m, u, r, h, PitchFrames(h), tools);
    }
  }

  lemma HeardExpected(m: Manifest, u: Features, r: Region, tools: Tools)
    requires u.hop > 0
    ensures Hear(m, u, r, tools).expected == Expected(r, u.hop)
  {
  }

  // ----- All regions ---------------------------------------------------------------------------------

  datatype Tally = Tally(
    corrections: seq<Correction>, errors: seq<real>, pitchFrames: int, expected: int, voiced: int, assessed: int,
    stability: seq<real>, rates: seq<real>, depths: seq<real>, onsets: seq<real>, changes: seq<real>,
    confidences: seq<real>, resolved: int, longTones: int, blocked: int)

  const NOTHING: Tally := Tally([], [], 0, 0, 0, 0, [], [], [], [], [], [], 0, 0, 0)

  function Count(t: Tally, r: Region, expected: int, a: Assessment): Tally {
    var seen := t.(expected := t.expected + expected);
    match a
    case Unheard => seen
    case Unresolved(voiced, blocked) =>
      seen.(voiced := t.voiced + voiced, blocked := t.blocked + if blocked then 1 else 0)
    case Missed(voiced, confidence, correction) =>
      seen.(voiced := t.voiced + voiced, assessed := t.assessed + (r.end - r.start),
            confidences := t.confidences + [confidence], corrections := t.corrections + [correction])
    case Resolved(voiced, pitchCount, errors, confidence, timing, tone, corrections) =>
      seen.(voiced := t.voiced + voiced, assessed := t.assessed + (r.end - r.start), resolved := t.resolved + 1,
            pitchFrames := t.pitchFrames + pitchCount, errors := t.errors + errors,
            confidences := t.confidences + [confidence], corrections := t.corrections + corrections,
            onsets := t.onsets + (if timing.Some? then [timing.value.onset] else []),
            changes := t.changes + (if timing.Some? then [timing.value.change] else []),
            longTones := t.longTones + (if tone.NotLong? then 0 else 1),
            stability := t.stability + (if tone.Steady? then [tone.deviation] else []),
            rates := t.rates + (if tone.Wavering? then [tone.vibrato.rate] else []),
            depths := t.depths + (if tone.Wavering? then [tone.vibrato.depth] else []))
  }

  function TallyOf(m: Manifest, u: Features, regions: seq<Region>, tools: Tools): Tally
    requires u.hop > 0 && u.rate > 0
  {
    if regions == [] then NOTHING
    else
      var n := |regions| - 1;
      Count(TallyOf(m, u, regions[..n], tools), regions[n], Expected(regions[n], u.hop),
            Assess(m, u, regions[n], tools))
  }

  function Samples(regions: seq<Region>): int {
    if regions == [] then 0
    else Samples(regions[..|regions| - 1]) + (regions[|regions| - 1].end - regions[|regions| - 1].start)
  }

  // Everything the tally promises, whatever was heard.
  ghost predicate FineTally(t: Tally, regions: seq<Region>) {
    && 0 <= t.assessed <= Samples(regions) && (t.assessed > 0 <==> t.confidences != [])
    && 0 <= t.pitchFrames <= t.expected && 0 <= t.voiced <= t.expected
    && (regions != [] ==> t.expected > 0)
    && |t.corrections| <= 4 * |regions|
    && (forall i :: 0 <= i < |t.corrections| ==> ValidCorrection(t.corrections[i]))
    && (forall i :: 0 <= i < |t.confidences| ==> Unit(t.confidences[i]))
    && |t.stability| + |t.rates| == t.longTones <= t.resolved && |t.rates| == |t.depths|
    && |t.onsets| == |t.changes| <= t.resolved <= |regions| && 0 <= t.blocked <= |regions|
    && (t.errors != [] <==> t.resolved > 0)
  }

  lemma CountFine(t: Tally, regions: seq<Region>, r: Region, expected: int, a: Assessment)
    requires FineTally(t, regions) && ValidRegion(r) && expected >= 1 && FineAssessment(r, expected, a)
    ensures FineTally(Count(t, r, expected, a), regions + [r])
  {
    hide ValidCorrection;
    assert (regions + [r])[..|regions|] == regions;
  }

  lemma {:induction false} TallyFine(m: Manifest, u: Features, regions: seq<Region>, tools: Tools)
    requires ValidFeatures(u) && forall i :: 0 <= i < |regions| ==> ValidRegion(regions[i])
    ensures FineTally(TallyOf(m, u, regions, tools), regions)
    decreases |regions|
  {
    hide FineAssessment, Assess, ValidRegion, Count, ValidFrame;
    if regions == [] {
    } else {
      hide FineTally;
      var n := |regions| - 1;
      TallyFine(m, u, regions[..n], tools);
      AssessFine(m, u, regions[n], tools);
      CountFine(TallyOf(m, u, regions[..n], tools), regions[..n], regions[n], Expected(regions[n], u.hop),
                Assess(m, u, regions[n], tools));
      assert regions[..n] + [regions[n]] == regions;
    }
  }

  // No two corrections share region and kind, so no two share an identifier.
  ghost predicate Distinct(c: seq<Correction>) {
    forall i, j :: 0 <= i < j < |c| ==> c[i].region != c[j].region || c[i].kind != c[j].kind
  }

  lemma {:induction false} TallyDistinct(m: Manifest, u: Features, regions: seq<Region>, tools: Tools)
    requires ValidFeatures(u) && (forall i :: 0 <= i < |regions| ==> ValidRegion(regions[i])) && DistinctIds(regions)
    ensures var c := TallyOf(m, u, regions, tools).corrections;
            Distinct(c) && forall i :: 0 <= i < |c| ==> exists k :: 0 <= k < |regions| && regions[k].id == c[i].region
    decreases |regions|
  {
    hide Assess, ValidRegion, ValidCorrection, ValidFrame;
    if regions != [] {
      var n := |regions| - 1;
      var before := TallyOf(m, u, regions[..n], tools).corrections;
      TallyDistinct(m, u, regions[..n], tools);
      AssessFine(m, u, regions[n], tools);
      var after := TallyOf(m, u, regions, tools).corrections;
      forall i | 0 <= i < |before|
        ensures (exists k :: 0 <= k < |regions| && regions[k].id == before[i].region)
                && before[i].region != regions[n].id
      {
        var k :| 0 <= k < n && regions[..n][k].id == before[i].region;
        assert regions[k].id == before[i].region;
      }
      assert |before| <= |after| && after[..|before|] == before;
      assert forall i :: |before| <= i < |after| ==> after[i].region == regions[n].id;
    }
  }

  // ----- Sorting corrections -----------------------------------------------------------------------------

  predicate NotAfter(a: Correction, b: Correction) {
    a.start < b.start || (a.start == b.start && Matching.KindRank(a.kind) <= Matching.KindRank(b.kind))
  }

  ghost predicate Ordered(c: seq<Correction>) {
    forall i, j :: 0 <= i < j < |c| ==> NotAfter(c[i], c[j])
  }

  // After everything that does not come after it, so that equals keep their order.
  function Place(c: seq<Correction>, x: Correction): (at: nat)
    requires Ordered(c)
    ensures at <= |c|
    ensures (forall i :: 0 <= i < at ==> NotAfter(c[i], x)) && (forall i :: at <= i < |c| ==> NotAfter(x, c[i]))
  {
    if c == [] || NotAfter(c[|c| - 1], x) then |c| else Place(c[..|c| - 1], x)
  }

  lemma NothingOrdered()
    ensures Ordered([])
  {
  }

  function SortCorrections(c: seq<Correction>): (r: seq<Correction>)
    ensures Ordered(r) && |r| == |c| && multiset(r) == multiset(c)
  {
    hide NotAfter, Ordered;
    if c == [] then
      NothingOrdered();
      []
    else
      var n := |c| - 1;
      var before := SortCorrections(c[..n]);
      var at := Place(before, c[n]);
      InsertKeepsOrder(before, c[n], at);
      assert c == c[..n] + [c[n]];
      before[..at] + [c[n]] + before[at..]
  }

  lemma InsertKeepsOrder(c: seq<Correction>, x: Correction, at: nat)
    requires Ordered(c) && at <= |c|
    requires (forall i :: 0 <= i < at ==> NotAfter(c[i], x)) && (forall i :: at <= i < |c| ==> NotAfter(x, c[i]))
    ensures Ordered(c[..at] + [x] + c[at..]) && multiset(c[..at] + [x] + c[at..]) == multiset(c) + multiset{x}
  {
    hide NotAfter;
    assert c == c[..at] + c[at..];
  }

  predicate SameIdentity(a: Correction, b: Correction) {
    a.region == b.region && a.kind == b.kind
  }

  lemma InsertDistinct(c: seq<Correction>, x: Correction, at: nat)
    requires Distinct(c) && at <= |c| && forall y :: y in c ==> !SameIdentity(y, x)
    ensures Distinct(c[..at] + [x] + c[at..])
  {
    assert forall i :: 0 <= i < |c| ==> c[i] in c;
  }

  lemma SortedMembers(c: seq<Correction>)
    ensures forall x :: x in SortCorrections(c) <==> x in c
  {
    hide SortCorrections;
    forall x
      ensures x in SortCorrections(c) <==> x in c
    {
      assert x in multiset(SortCorrections(c)) <==> x in multiset(c);
    }
  }

  lemma {:induction false} SortKeeps(c: seq<Correction>)
    requires Distinct(c)
    ensures Distinct(SortCorrections(c))
    decreases |c|
  {
    hide ValidCorrection, NotAfter;
    if c != [] {
      var n := |c| - 1;
      var before := SortCorrections(c[..n]);
      SortKeeps(c[..n]);
      SortedMembers(c[..n]);
      hide Ordered;
      assert forall y :: y in c[..n] ==> !SameIdentity(y, c[n]);
      InsertDistinct(before, c[n], Place(before, c[n]));
    }
  }

  // ----- The score ------------------------------------------------------------------------------------------

  datatype Request = Request(zoned: bool, producedAt: int, policyVersion: nat, policyApproved: bool,
                             ids: Option<seq<nat>>)

  const POLICY_VERSION: nat := 1

  datatype Error =
    | NoTimezone | UnregisteredPolicy | UnapprovedPolicy | OtherTenant | OtherRate | OtherCalibration
    | ManifestVersion | FeatureVersion | TooEarly | NoRegionIds | DuplicateIds | UnknownIds | BadCoverage | InvalidScore

  datatype Outcome = Raised(why: Error) | Scored(score: Score)

  function InputError(m: Manifest, u: Features, q: Request): Option<Error> {
    if !q.zoned then Some(NoTimezone)
    else if q.policyVersion != POLICY_VERSION then Some(UnregisteredPolicy)
    else if !q.policyApproved then Some(UnapprovedPolicy)
    else if m.tenant != u.tenant then Some(OtherTenant)
    else if m.rate != u.rate then Some(OtherRate)
    else if m.calibration != u.calibration then Some(OtherCalibration)
    else if m.scoreVersion != q.policyVersion then Some(ManifestVersion)
    else if u.scoreVersion != q.policyVersion then Some(FeatureVersion)
    else if q.producedAt < m.producedAt || q.producedAt < u.producedAt then Some(TooEarly)
    else None
  }

  predicate Repeats(ids: seq<nat>) {
    exists i, j :: 0 <= i < j < |ids| && ids[i] == ids[j]
  }

  predicate Known(id: nat, regions: seq<Region>) {
    exists i :: 0 <= i < |regions| && regions[i].id == id
  }

  function IdsError(m: Manifest, q: Request): Option<Error> {
    match q.ids
    case None => None
    case Some(ids) =>
      if ids == [] then Some(NoRegionIds)
      else if Repeats(ids) then Some(DuplicateIds)
      else if exists i :: 0 <= i < |ids| && !Known(ids[i], m.regions) then Some(UnknownIds)
      else None
  }

  predicate Eligible(r: Region) {
    r.reference >= MIN_REFERENCE_CONFIDENCE && r.monophonic >= MIN_MONOPHONIC_CONFIDENCE && !r.ornament
  }

  // The requested regions, or all, that the reference is good enough for.
  function Selected(regions: seq<Region>, ids: Option<seq<nat>>): (kept: seq<Region>)
    ensures |kept| <= |regions|
    ensures forall r :: r in kept <==> r in regions && (ids.None? || r.id in ids.value) && Eligible(r)
  {
    if regions == [] then []
    else
      var n := |regions| - 1;
      assert regions == regions[..n] + [regions[n]];
      Selected(regions[..n], ids)
      + if (ids.None? || regions[n].id in ids.value) && Eligible(regions[n]) then [regions[n]] else []
  }

  function Covered(r: Region, u: Features): int
    requires u.frames != []
  {
    MaxInt(0, MinInt(r.end, u.frames[|u.frames| - 1].index + u.hop) - MaxInt(r.start, u.frames[0].index))
  }

  function CoveredSamples(regions: seq<Region>, u: Features): int
    requires u.frames != []
  {
    if regions == [] then 0
    else CoveredSamples(regions[..|regions| - 1], u) + Covered(regions[|regions| - 1], u)
  }

  function Abstention(m: Manifest, u: Features, q: Request, why: Reason): Score {
    Score(m.tenant, u.session, u.phrase, m.song, 0.0, map[], [], Some(why), q.policyVersion, q.producedAt)
  }

  function Optional(metrics: map<MetricName, Metric>, name: MetricName, values: seq<real>, unit: MeasureUnit,
                    confidence: real, eligible: int): map<MetricName, Metric>
  {
    if values == [] then metrics
    else metrics[name := MetricOf(Median(values), unit, confidence, Min(Ratio(|values|, MaxInt(1, eligible)), 1.0))]
  }

  function Lowest(values: seq<real>): (m: real)
    requires values != []
    ensures m in values && forall i :: 0 <= i < |values| ==> m <= values[i]
  {
    if |values| == 1 then values[0] else Min(Lowest(values[..|values| - 1]), values[|values| - 1])
  }

  function Share(n: int, d: int): real {
    if d != 0 then Ratio(n, d) else 0.0
  }

  function Absolutes(values: seq<real>): (r: seq<real>)
    ensures |r| == |values|
  {
    seq(|values|, i requires 0 <= i < |values| => Abs(values[i]))
  }

  function BasicMetrics(t: Tally, timeline: real, confidence: real): map<MetricName, Metric> {
    var basic := map[TimelineCoverage := MetricOf(timeline, MeasureUnit.Ratio, 1.0, timeline),
                     VoicedCoverage := MetricOf(Share(t.voiced, t.expected), MeasureUnit.Ratio, confidence, timeline)];
    var pitch := Share(t.pitchFrames, t.expected);
    if t.errors == [] then basic
    else basic[PitchCenter := MetricOf(Median(t.errors), Cents, confidence, pitch)]
              [AbsolutePitchError := MetricOf(Median(Absolutes(t.errors)), Cents, confidence, pitch)]
  }

  function Metrics(t: Tally, timeline: real, confidence: real): map<MetricName, Metric> {
    var onset := Optional(BasicMetrics(t, timeline, confidence), OnsetOffset, t.onsets, Milliseconds, confidence,
                          t.resolved);
    var change := Optional(onset, DurationDelta, t.changes, Milliseconds, confidence, t.resolved);
    var steady := Optional(change, LongToneStability, t.stability, Cents, confidence, t.longTones);
    var rate := Optional(steady, VibratoRate, t.rates, Hertz, confidence, t.longTones);
    Optional(rate, VibratoDepth, t.depths, Cents, confidence, t.longTones)
  }

  function Authoritative(m: Manifest, u: Features, q: Request, t: Tally, timeline: real, total: int): Score
    requires t.confidences != [] && total > 0
  {
    Score(m.tenant, u.session, u.phrase, m.song, Ratio(t.assessed, total),
          Metrics(t, timeline, Quantize(Lowest(t.confidences))),
          SortCorrections(t.corrections), None, q.policyVersion, q.producedAt)
  }

  // The contract model's own validation of what was built.
  function Build(s: Score): Outcome {
    if ValidScore(s) then Scored(s) else Raised(InvalidScore)
  }

  function Leakages(u: Features, regions: seq<Region>): seq<real> {
    Each(Keep(f => exists i :: 0 <= i < |regions| && Inside(f, regions[i]), u.frames), (f: Frame) => f.leakage)
  }

  // Scoring the selected regions.
  function ScoreRegions(m: Manifest, u: Features, q: Request, regions: seq<Region>, tools: Tools): Outcome
    requires ValidFeatures(u) && regions != [] && forall i :: 0 <= i < |regions| ==> ValidRegion(regions[i])
  {
    var total := Samples(regions);
    SamplesPositive(regions);
    var timeline := Ratio(CoveredSamples(regions, u), total);
    var leakages := Leakages(u, regions);
    if timeline < MIN_TIMELINE_COVERAGE then Build(Abstention(m, u, q, IncompletePhrase))
    else if leakages != [] && Median(leakages) > MAX_LEAKAGE then Build(Abstention(m, u, q, Leakage))
    else
      var t := TallyOf(m, u, regions, tools);
      TallyFine(m, u, regions, tools);
      if t.assessed == 0 then Build(Abstention(m, u, q, if t.blocked == |regions| then Leakage else NoPitch))
      else if !(0.0 < Ratio(t.assessed, total) <= 1.0) then Raised(BadCoverage)
      else Build(Authoritative(m, u, q, t, timeline, total))
  }

  lemma {:induction false} SamplesPositive(regions: seq<Region>)
    requires forall i :: 0 <= i < |regions| ==> ValidRegion(regions[i])
    ensures Samples(regions) >= |regions|
    decreases |regions|
  {
    if regions != [] {
      SamplesPositive(regions[..|regions| - 1]);
    }
  }

  function ScorePhrase(m: Manifest, u: Features, q: Request, tools: Tools): Outcome
    requires ValidManifest(m) && ValidFeatures(u)
  {
    hide ValidFrame, ValidRegion;
    if InputError(m, u, q).Some? then Raised(InputError(m, u, q).value)
    else if m.gate != Accepted then Build(Abstention(m, u, q, ReferenceGate(m.gate)))
    else if IdsError(m, q).Some? then Raised(IdsError(m, q).value)
    else
      var regions := Selected(m.regions, q.ids);
      SelectedValid(m, q.ids);
      if regions == [] then Build(Abstention(m, u, q, NoRegions))
      else ScoreRegions(m, u, q, regions, tools)
  }

  // ----- The score is always valid ------------------------------------------------------------------------

  ghost predicate AllValid(metrics: map<MetricName, Metric>) {
    forall n :: n in metrics ==> ValidMetric(metrics[n])
  }

  lemma OptionalValid(metrics: map<MetricName, Metric>, name: MetricName, values: seq<real>, unit: MeasureUnit,
                      confidence: real, eligible: int)
    requires AllValid(metrics) && Unit(confidence)
    ensures AllValid(Optional(metrics, name, values, unit, confidence, eligible))
  {
    hide MetricOf, Median;
    if values != [] {
      RatioSign(|values|, MaxInt(1, eligible));
      MetricIsValid(Median(values), unit, confidence, Min(Ratio(|values|, MaxInt(1, eligible)), 1.0));
    }
  }

  lemma ShareFine(n: int, d: int)
    requires 0 <= n <= d
    ensures Unit(Share(n, d))
  {
    if d != 0 {
      RatioSign(n, d);
    }
  }

  lemma MetricsValid(t: Tally, timeline: real, confidence: real)
    requires 0 <= t.voiced <= t.expected && 0 <= t.pitchFrames <= t.expected && Unit(timeline) && Unit(confidence)
    ensures AllValid(Metrics(t, timeline, confidence))
  {
    hide MetricOf, Median, Optional, Share, AllValid;
    ShareFine(t.voiced, t.expected);
    ShareFine(t.pitchFrames, t.expected);
    var basic := BasicMetrics(t, timeline, confidence);
    BasicValid(t, timeline, confidence);
    var onset := Optional(basic, OnsetOffset, t.onsets, Milliseconds, confidence, t.resolved);
    var change := Optional(onset, DurationDelta, t.changes, Milliseconds, confidence, t.resolved);
    var steady := Optional(change, LongToneStability, t.stability, Cents, confidence, t.longTones);
    var rate := Optional(steady, VibratoRate, t.rates, Hertz, confidence, t.longTones);
    OptionalValid(basic, OnsetOffset, t.onsets, Milliseconds, confidence, t.resolved);
    OptionalValid(onset, DurationDelta, t.changes, Milliseconds, confidence, t.resolved);
    OptionalValid(change, LongToneStability, t.stability, Cents, confidence, t.longTones);
    OptionalValid(steady, VibratoRate, t.rates, Hertz, confidence, t.longTones);
    OptionalValid(rate, VibratoDepth, t.depths, Cents, confidence, t.longTones);
  }

  lemma BasicValid(t: Tally, timeline: real, confidence: real)
    requires Unit(Share(t.voiced, t.expected)) && Unit(Share(t.pitchFrames, t.expected)) && Unit(timeline)
             && Unit(confidence)
    ensures AllValid(BasicMetrics(t, timeline, confidence))
  {
    hide MetricOf, Median, Share;
    MetricIsValid(timeline, MeasureUnit.Ratio, 1.0, timeline);
    MetricIsValid(Share(t.voiced, t.expected), MeasureUnit.Ratio, confidence, timeline);
    if t.errors != [] {
      MetricIsValid(Median(t.errors), Cents, confidence, Share(t.pitchFrames, t.expected));
      MetricIsValid(Median(Absolutes(t.errors)), Cents, confidence, Share(t.pitchFrames, t.expected));
    }
  }

  lemma {:induction false} CoverageBounded(regions: seq<Region>, u: Features)
    requires u.frames != [] && forall i :: 0 <= i < |regions| ==> ValidRegion(regions[i])
    ensures 0 <= CoveredSamples(regions, u) <= Samples(regions)
    decreases |regions|
  {
    if regions != [] {
      CoverageBounded(regions[..|regions| - 1], u);
    }
  }

  lemma AbstentionValid(m: Manifest, u: Features, q: Request, why: Reason)
    ensures Build(Abstention(m, u, q, why)) == Scored(Abstention(m, u, q, why))
  {
  }

  // Whether a phrase is judged at all, rather than abstained from.
  predicate Judged(m: Manifest, u: Features, regions: seq<Region>, tools: Tools)
    requires ValidFeatures(u) && regions != [] && forall i :: 0 <= i < |regions| ==> ValidRegion(regions[i])
  {
    SamplesPositive(regions);
    && Ratio(CoveredSamples(regions, u), Samples(regions)) >= MIN_TIMELINE_COVERAGE
    && (Leakages(u, regions) == [] || Median(Leakages(u, regions)) <= MAX_LEAKAGE)
    && TallyOf(m, u, regions, tools).assessed > 0
  }

  // What an authoritative score says about the phrase.
  ghost predicate Faithful(s: Score, m: Manifest, u: Features, regions: seq<Region>, tools: Tools)
    requires ValidFeatures(u) && regions != [] && forall i :: 0 <= i < |regions| ==> ValidRegion(regions[i])
  {
    SamplesPositive(regions);
    var t := TallyOf(m, u, regions, tools);
    && s.coverage == Ratio(t.assessed, Samples(regions)) && 0.0 < s.coverage <= 1.0
    && multiset(s.corrections) == multiset(t.corrections) && |s.corrections| <= 4 * |regions|
    && Ordered(s.corrections) && Distinct(s.corrections)
    && |t.stability| + |t.rates| == t.longTones && |t.rates| == |t.depths|
  }

  lemma AuthoritativeValid(m: Manifest, u: Features, q: Request, regions: seq<Region>, tools: Tools)
    requires ValidFeatures(u) && regions != [] && (forall i :: 0 <= i < |regions| ==> ValidRegion(regions[i]))
             && DistinctIds(regions)
    requires TallyOf(m, u, regions, tools).confidences != [] && Samples(regions) > 0
    ensures var t := TallyOf(m, u, regions, tools);
            var s := Authoritative(m, u, q, t, Ratio(CoveredSamples(regions, u), Samples(regions)), Samples(regions));
            WellFormedScore(s) && Faithful(s, m, u, regions, tools) && s.abstained.None?
  {
    hide ValidFrame, ValidRegion, TallyOf, Metrics, SortCorrections, ValidCorrection, Quantize, Ordered, Distinct,
         Covered, CoveredSamples, Samples;
    var t, total := TallyOf(m, u, regions, tools), Samples(regions);
    TallyFine(m, u, regions, tools);
    TallyDistinct(m, u, regions, tools);
    CoverageBounded(regions, u);
    RatioSign(CoveredSamples(regions, u), total);
    AssessedShare(t.assessed, total);
    QuantizeUnit(Lowest(t.confidences));
    MetricsValid(t, Ratio(CoveredSamples(regions, u), total), Quantize(Lowest(t.confidences)));
    SortKeeps(t.corrections);
    SortedValid(t.corrections);
  }

  lemma AssessedShare(n: int, d: int)
    requires 0 < n <= d
    ensures 0.0 < Ratio(n, d) <= 1.0
  {
    DivideSign(n as real, d as real);
    UnitRatio(n as real, d as real);
  }

  lemma SortedValid(c: seq<Correction>)
    requires forall i :: 0 <= i < |c| ==> ValidCorrection(c[i])
    ensures forall i :: 0 <= i < |c| ==> ValidCorrection(SortCorrections(c)[i])
  {
    hide ValidCorrection;
    SortedMembers(c);
    forall i | 0 <= i < |c|
      ensures ValidCorrection(SortCorrections(c)[i])
    {
      assert SortCorrections(c)[i] in SortCorrections(c);
    }
  }

  lemma ScoredRegions(m: Manifest, u: Features, q: Request, regions: seq<Region>, tools: Tools)
    requires ValidFeatures(u) && regions != [] && (forall i :: 0 <= i < |regions| ==> ValidRegion(regions[i]))
             && DistinctIds(regions)
    ensures var o := ScoreRegions(m, u, q, regions, tools);
            && (o.Scored? ==> ValidScore(o.score))
            && (o.Raised? <==>
                Judged(m, u, regions, tools) && |TallyOf(m, u, regions, tools).corrections| > MAX_CORRECTIONS)
            && (o.Raised? ==> o.why == InvalidScore && |regions| > 2_500)
            && (o.Scored? && o.score.abstained.None? <==> o.Scored? && Judged(m, u, regions, tools))
            && (o.Scored? && o.score.abstained.None? ==> Faithful(o.score, m, u, regions, tools))
  {
    hide ValidFrame, ValidRegion, TallyOf, SortCorrections, ValidCorrection, Covered, CoveredSamples, Samples,
         Faithful, Authoritative, WellFormedScore, Median, Leakages;
    SamplesPositive(regions);
    TallyFine(m, u, regions, tools);
    AbstentionValid(m, u, q, IncompletePhrase);
    AbstentionValid(m, u, q, Leakage);
    AbstentionValid(m, u, q, NoPitch);
    var t := TallyOf(m, u, regions, tools);
    if t.assessed > 0 {
      AuthoritativeValid(m, u, q, regions, tools);
      AssessedShare(t.assessed, Samples(regions));
      AuthoritativeCount(m, u, q, t, Ratio(CoveredSamples(regions, u), Samples(regions)), Samples(regions));
    }
  }

  lemma AuthoritativeCount(m: Manifest, u: Features, q: Request, t: Tally, timeline: real, total: int)
    requires t.confidences != [] && total > 0
    ensures |Authoritative(m, u, q, t, timeline, total).corrections| == |t.corrections|
  {
  }

  lemma LastIsNew(regions: seq<Region>, ids: Option<seq<nat>>)
    requires DistinctIds(regions) && regions != []
    ensures forall r :: r in Selected(regions[..|regions| - 1], ids) ==> r.id != regions[|regions| - 1].id
  {
    hide Eligible;
    var n := |regions| - 1;
    forall r | r in Selected(regions[..n], ids) ensures r.id != regions[n].id {
      assert r in regions[..n];
      var k :| 0 <= k < n && regions[..n][k] == r;
      assert regions[k] == r;
    }
  }

  lemma AppendedDistinct(regions: seq<Region>, r: Region)
    requires DistinctIds(regions) && forall x :: x in regions ==> x.id != r.id
    ensures DistinctIds(regions + [r])
  {
  }

  lemma {:induction false} SelectedDistinct(regions: seq<Region>, ids: Option<seq<nat>>)
    requires DistinctIds(regions)
    ensures DistinctIds(Selected(regions, ids))
    decreases |regions|
  {
    hide Eligible, DistinctIds;
    if regions == [] {
      NoneDistinct();
    } else {
      var n := |regions| - 1;
      PrefixDistinct(regions);
      SelectedDistinct(regions[..n], ids);
      LastIsNew(regions, ids);
      AppendedDistinct(Selected(regions[..n], ids), regions[n]);
      assert Selected(regions[..n], ids) + [] == Selected(regions[..n], ids);
    }
  }

  lemma NoneDistinct()
    ensures DistinctIds([])
  {
  }

  lemma PrefixDistinct(regions: seq<Region>)
    requires DistinctIds(regions) && regions != []
    ensures DistinctIds(regions[..|regions| - 1])
  {
  }

  lemma SelectedValid(m: Manifest, ids: Option<seq<nat>>)
    requires ValidManifest(m)
    ensures DistinctIds(Selected(m.regions, ids)) && forall i :: 0 <= i < |Selected(m.regions, ids)| ==>
              ValidRegion(Selected(m.regions, ids)[i])
  {
    hide ValidRegion, Eligible;
    var kept := Selected(m.regions, ids);
    SelectedDistinct(m.regions, ids);
    forall i | 0 <= i < |kept|
      ensures ValidRegion(kept[i])
    {
      assert kept[i] in kept;
      var k :| 0 <= k < |m.regions| && m.regions[k] == kept[i];
    }
  }

  // For valid inputs the scorer raises only what the inputs deserve, or because a phrase
  // that is judged has more than 10,000 corrections, which takes more than 2,500 selected
  // regions.  Whatever it returns satisfies the output contract.
  lemma ScoreIsValid(m: Manifest, u: Features, q: Request, tools: Tools)
    requires ValidManifest(m) && ValidFeatures(u)
    ensures var o, regions := ScorePhrase(m, u, q, tools), Selected(m.regions, q.ids);
            && (o.Scored? ==> ValidScore(o.score))
            && (InputError(m, u, q).Some? ==> o == Raised(InputError(m, u, q).value))
            && (InputError(m, u, q).None? && m.gate != Accepted ==>
                o.Scored? && o.score.abstained == Some(ReferenceGate(m.gate)))
            && (InputError(m, u, q).None? && m.gate == Accepted && IdsError(m, q).Some? ==>
                o == Raised(IdsError(m, q).value))
            && (InputError(m, u, q).None? && m.gate == Accepted && IdsError(m, q).None? ==>
                  && (|regions| <= 2_500 ==> o.Scored?)
                  && (regions == [] ==> o.Scored? && o.score.abstained == Some(NoRegions))
                  && (regions != [] ==>
                        && (forall i :: 0 <= i < |regions| ==> ValidRegion(regions[i]))
                        && (o.Raised? <==>
                            Judged(m, u, regions, tools)
                                && |TallyOf(m, u, regions, tools).corrections| > MAX_CORRECTIONS)
                        && (o.Raised? ==> o.why == InvalidScore)
                        && (o.Scored? && o.score.abstained.None? <==> o.Scored? && Judged(m, u, regions, tools))
                        && (o.Scored? && o.score.abstained.None? ==> Faithful(o.score, m, u, regions, tools))))
  {
    hide ValidFrame, ValidRegion, Selected, ScoreRegions, TallyOf, Judged, Faithful, ValidScore, HasArtifacts,
         InputError, IdsError;
    SelectedValid(m, q.ids);
    var regions := Selected(m.regions, q.ids);
    AbstentionIsValid(m, u, q, ReferenceGate(m.gate));
    AbstentionIsValid(m, u, q, NoRegions);
    if regions != [] {
      ScoredRegions(m, u, q, regions, tools);
    }
  }

  lemma AbstentionIsValid(m: Manifest, u: Features, q: Request, why: Reason)
    ensures var o := Build(Abstention(m, u, q, why)); o.Scored? && ValidScore(o.score) && o.score.abstained == Some(why)
  {
  }

  // A valid manifest always has the artifact its corrections cite.
  function AuthoritativeKind(source: Source): ArtifactKind {
    if source == CanonicalNotes then Notes else F0
  }

  lemma ReferenceArtifactExists(m: Manifest)
    requires ValidManifest(m)
    ensures AuthoritativeKind(m.source) in m.artifacts
  {
  }

  // ----- The same, with the source's loop over regions -----------------------------------------------------------

  method AssessRegion(m: Manifest, u: Features, r: Region, tools: Tools) returns (a: Assessment)
    requires u.hop > 0 && u.rate > 0
    ensures a == Assess(m, u, r, tools)
  {
    hide Median, TimingFrames, VibratoOf, Quantize, Silent, PitchFrames, ResolvedRegion, MissedNote, Enough,
         CleanCoverage;
    var expected := Expected(r, u.hop);
    var frames := Keep(f => Inside(f, r), u.frames);
    var clean := Keep((f: Frame) => f.leakage <= MAX_LEAKAGE, frames);
    var voiced := Keep((f: Frame) => f.voiced, clean);
    var timing := ComputeTimingFrames(u, r, m.regions, tools.cents);
    var h := Heard(expected, frames, clean, voiced, timing);
    assert h == Hear(m, u, r, tools);
    if Ratio(|frames|, expected) < MIN_TIMELINE_COVERAGE {
      return Unheard;
    }
    if Ratio(|voiced|, expected) <= MISSED_VOICED_COVERAGE {
      if Silent(h) {
        return MissedNote(r, h);
      }
      if !Enough(timing, expected) {
        return Unresolved(|voiced|, CleanCoverage(h) < MIN_TIMELINE_COVERAGE);
      }
    }
    var pitchFrames := PitchFrames(h);
    if !Enough(pitchFrames, expected) {
      return Unresolved(|voiced|, false);
    }
    a := ResolvedRegion(u, r, h, pitchFrames, tools);
  }

  lemma TallyNothing(m: Manifest, u: Features, tools: Tools)
    requires u.hop > 0 && u.rate > 0
    ensures TallyOf(m, u, [], tools) == NOTHING
  {
  }

  lemma TallyNext(m: Manifest, u: Features, regions: seq<Region>, tools: Tools)
    requires u.hop > 0 && u.rate > 0 && regions != []
    ensures var n := |regions| - 1;
            TallyOf(m, u, regions, tools) ==
            Count(TallyOf(m, u, regions[..n], tools), regions[n], Expected(regions[n], u.hop),
                  Assess(m, u, regions[n], tools))
  {
    hide Count, Assess, Expected;
  }

  method TallyRegions(m: Manifest, u: Features, regions: seq<Region>, tools: Tools) returns (t: Tally)
    requires u.hop > 0 && u.rate > 0
    ensures t == TallyOf(m, u, regions, tools)
  {
    hide Assess, TallyOf, Expected;
    TallyNothing(m, u, tools);
    var corrections: seq<Correction>, errors: seq<real>, stability: seq<real>, rates: seq<real>,
        depths: seq<real> := [], [], [], [], [];
    var onsets: seq<real>, changes: seq<real>, confidences: seq<real> := [], [], [];
    var pitchFrames, expected, voiced, assessed, resolved, longTones, blocked := 0, 0, 0, 0, 0, 0, 0;
    for i := 0 to |regions|
      invariant Tally(corrections, errors, pitchFrames, expected, voiced, assessed, stability, rates, depths, onsets,
                      changes,
                      confidences, resolved, longTones, blocked) == TallyOf(m, u, regions[..i], tools)
    {
      var region := regions[i];
      TallyNext(m, u, regions[..i + 1], tools);
      assert regions[..i + 1][..i] == regions[..i];
      expected := expected + Expected(region, u.hop);
      var a := AssessRegion(m, u, region, tools);
      if a.Unheard? {
        continue;
      }
      voiced := voiced + a.voiced;
      if a.Unresolved? {
        if a.blocked {
          blocked := blocked + 1;
        }
        continue;
      }
      assessed := assessed + (region.end - region.start);
      confidences := confidences + [a.confidence];
      if a.Missed? {
        corrections := corrections + [a.correction];
        continue;
      }
      resolved := resolved + 1;
      pitchFrames := pitchFrames + a.pitchCount;
      errors := errors + a.errors;
      corrections := corrections + a.corrections;
      if a.timing.Some? {
        onsets := onsets + [a.timing.value.onset];
        changes := changes + [a.timing.value.change];
      }
      if !a.tone.NotLong? {
        longTones := longTones + 1;
        if a.tone.Wavering? {
          rates := rates + [a.tone.vibrato.rate];
          depths := depths + [a.tone.vibrato.depth];
        } else {
          stability := stability + [a.tone.deviation];
        }
      }
    }
    assert regions[..|regions|] == regions;
    t := Tally(corrections, errors, pitchFrames, expected, voiced, assessed, stability, rates, depths, onsets, changes,
               confidences, resolved, longTones, blocked);
  }

  method ComputeScore(m: Manifest, u: Features, q: Request, tools: Tools) returns (o: Outcome)
    requires ValidManifest(m) && ValidFeatures(u)
    ensures o == ScorePhrase(m, u, q, tools)
  {
    hide InputError, IdsError, Selected, TallyOf, Median, Leakages, Build, Authoritative, ValidFrame, ValidRegion;
    var wrong := InputError(m, u, q);
    if wrong.Some? {
      return Raised(wrong.value);
    }
    if m.gate != Accepted {
      return Build(Abstention(m, u, q, ReferenceGate(m.gate)));
    }
    wrong := IdsError(m, q);
    if wrong.Some? {
      return Raised(wrong.value);
    }
    var regions := Selected(m.regions, q.ids);
    if regions == [] {
      return Build(Abstention(m, u, q, NoRegions));
    }
    SelectedValid(m, q.ids);
    SamplesPositive(regions);
    var total := Samples(regions);
    var timeline := Ratio(CoveredSamples(regions, u), total);
    if timeline < MIN_TIMELINE_COVERAGE {
      return Build(Abstention(m, u, q, IncompletePhrase));
    }
    var leakages := Leakages(u, regions);
    if leakages != [] && Median(leakages) > MAX_LEAKAGE {
      return Build(Abstention(m, u, q, Leakage));
    }
    var t := TallyRegions(m, u, regions, tools);
    TallyFine(m, u, regions, tools);
    if t.assessed == 0 {
      return Build(Abstention(m, u, q, if t.blocked == |regions| then Leakage else NoPitch));
    }
    var coverage := Ratio(t.assessed, total);
    if !(0.0 < coverage <= 1.0) {
      return Raised(BadCoverage);
    }
    o := Build(Authoritative(m, u, q, t, timeline, total));
  }
}
