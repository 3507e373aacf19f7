// The ingest gate: which recordings get a reference that singers may be scored against.
module Gate {
  import opened Options
  import opened Reals
  import opened Stats
  import opened ScoreContracts
  import opened ScoreFrames
  import ScorePhrase

  // The approved ingest policy.
  const MIN_REFERENCE_CONFIDENCE: real := 0.80
  const MIN_MONOPHONIC_CONFIDENCE: real := 0.80
  const MIN_REGION_VOICED_COVERAGE: real := 0.70
  const MIN_SCORABLE_COVERAGE: real := 0.35
  const MIN_VOCAL_PRESENCE: real := 0.05
  const MIN_SEPARATION_CONFIDENCE: real := 0.70
  const MAX_ACCOMPANIMENT_LEAKAGE: real := 0.25
  const MIN_REGION_DURATION_MS: real := 100.0

  datatype RefFrame = RefFrame(index: int, voiced: bool, f0: Option<real>, f0Confidence: real, monophonic: real)

  predicate ValidRefFrame(f: RefFrame) {
    && f.index >= 0 && (f.voiced <==> f.f0.Some?) && (f.f0.Some? ==> 0.0 < f.f0.value <= 20_000.0)
    && Unit(f.f0Confidence) && Unit(f.monophonic)
  }

  datatype Candidate = Candidate(start: int, end: int, ornament: bool)

  datatype Stems = Stems(vocalPresence: real, separation: real, leakage: real)

  datatype Analysis = Analysis(rate: int, duration: int, frames: seq<RefFrame>, candidates: seq<Candidate>)

  predicate ValidAnalysis(a: Analysis) {
    && 8_000 <= a.rate <= 192_000 && a.duration > 0 && |a.candidates| <= 100_000
    && (forall i :: 0 <= i < |a.frames| ==> ValidRefFrame(a.frames[i]))
    && (forall i :: 0 <= i < |a.candidates| ==> 0 <= a.candidates[i].start < a.candidates[i].end <= a.duration)
    && (forall i, j :: 0 <= i < j < |a.candidates| ==> a.candidates[i].end <= a.candidates[j].start)
  }

  // Identifiers are derived from the range and the ornament flag, which nothing else shares.
  type RegionIds = (int, int, bool) -> nat

  ghost predicate Injective(ids: RegionIds) {
    forall a, b, c, d, e, f :: ids(a, b, c) == ids(d, e, f) ==> a == d && b == e && c == f
  }

  datatype Issue = NoVocal | LowConfidence | HighLeakage | NoRegions | InsufficientCoverage | PartialCoverage

  predicate Blocking(i: Issue) {
    !i.PartialCoverage?
  }

  datatype Outcome = Outcome(status: GateStatus, coverage: real, issues: seq<Issue>, regions: seq<Region>)

  // ----- Frames as the gate sees them: rounded to six decimals --------------------------------

  function Normalized(f: RefFrame): RefFrame {
    f.(f0 := if f.f0.Some? then Some(Quantize(f.f0.value)) else None,
       f0Confidence := Quantize(f.f0Confidence), monophonic := Quantize(f.monophonic))
  }

  // A positive rounded pitch is at least one millionth, so rounding it again keeps it
  // positive.  A pitch that rounds to zero is refused before the gate.
  lemma NormalizedFrame(f: RefFrame)
    requires ValidRefFrame(f)
    ensures ValidRefFrame(Normalized(f)) <==> (f.f0.Some? ==> Quantize(f.f0.value) > 0.0)
    ensures ValidRefFrame(Normalized(f)) && f.f0.Some? ==> Normalized(f).f0.value >= 0.000001
  {
    QuantizeUnit(f.f0Confidence);
    QuantizeUnit(f.monophonic);
    if f.f0.Some? {
      QuantizeMonotone(f.f0.value, 20_000.0);
      SmallestPositive(f.f0.value);
    }
  }

  lemma SmallestPositive(x: real)
    ensures Quantize(x) > 0.0 ==> Quantize(x) >= 0.000001
    ensures Quantize(20_000.0) == 20_000.0 && Quantize(0.000001) == 0.000001
  {
  }

  // What the pipeline hands to the gate.
  ghost predicate Ready(a: Analysis) {
    ValidAnalysis(a) && forall i :: 0 <= i < |a.frames| && a.frames[i].f0.Some? ==> a.frames[i].f0.value >= 0.000001
  }

  // ----- One candidate ----------------------------------------------------------------------

  function FramesOf(a: Analysis, c: Candidate): seq<RefFrame> {
    Keep((f: RefFrame) => c.start <= f.index < c.end, a.frames)
  }

  function VoicedOf(frames: seq<RefFrame>): seq<RefFrame> {
    Keep((f: RefFrame) => f.voiced && f.f0.Some?, frames)
  }

  function MinimumSamples(rate: int): int {
    Ceil(MIN_REGION_DURATION_MS * rate as real / 1000.0)
  }

  predicate Usable(a: Analysis, c: Candidate) {
    c.end - c.start >= MinimumSamples(a.rate) && FramesOf(a, c) != [] && VoicedOf(FramesOf(a, c)) != []
  }

  function RegionOf(a: Analysis, c: Candidate, ids: RegionIds): Region
    requires Usable(a, c)
  {
    var frames := FramesOf(a, c);
    Region(ids(c.start, c.end, c.ornament), c.start, c.end,
           Quantize(Median(Each(VoicedOf(frames), (f: RefFrame) => if f.f0.Some? then f.f0.value else 0.0))),
           Quantize(Median(Each(frames, (f: RefFrame) => f.f0Confidence))),
           Quantize(Median(Each(frames, (f: RefFrame) => f.monophonic))),
           c.ornament)
  }

  function VoicedCoverage(a: Analysis, c: Candidate): real {
    var frames := FramesOf(a, c);
    if frames != [] then |VoicedOf(frames)| as real / |frames| as real else 0.0
  }

  // Whether the candidate counts towards the song's scorable coverage.
  predicate Counts(a: Analysis, c: Candidate, ids: RegionIds) {
    && Usable(a, c)
    && RegionOf(a, c, ids).reference >= MIN_REFERENCE_CONFIDENCE
    && RegionOf(a, c, ids).monophonic >= MIN_MONOPHONIC_CONFIDENCE
    && VoicedCoverage(a, c) >= MIN_REGION_VOICED_COVERAGE && !c.ornament
  }

  // ----- All candidates -----------------------------------------------------------------------

  datatype Survey = Survey(regions: seq<Region>, eligible: int, excluded: nat, total: int)

  // The first n candidates.
  function SurveyOf(a: Analysis, ids: RegionIds, n: nat): Survey
    requires n <= |a.candidates|
  {
    if n == 0 then Survey([], 0, 0, 0)
    else
      var before, c := SurveyOf(a, ids, n - 1), a.candidates[n - 1];
      var length := c.end - c.start;
      if !Usable(a, c) then before.(excluded := before.excluded + 1, total := before.total + length)
      else before.(regions := before.regions + [RegionOf(a, c, ids)], total := before.total + length,
                   eligible := before.eligible + if Counts(a, c, ids) then length else 0)
  }

  function BlockingIssues(stems: Stems, s: Survey, coverage: real): seq<Issue> {
    (if stems.separation < MIN_SEPARATION_CONFIDENCE then [LowConfidence] else [])
    + (if stems.leakage > MAX_ACCOMPANIMENT_LEAKAGE then [HighLeakage] else [])
    + (if s.regions == [] then [Issue.NoRegions] else if coverage < MIN_SCORABLE_COVERAGE then
       [InsufficientCoverage] else [])
  }

  function CoverageOf(s: Survey): real {
    if s.total > 0 then Quantize(s.eligible as real / s.total as real) else 0.0
  }

  function GateOf(stems: Stems, a: Analysis, ids: RegionIds): Outcome {
    if stems.vocalPresence < MIN_VOCAL_PRESENCE then Outcome(Rejected, 0.0, [NoVocal], [])
    else
      var s := SurveyOf(a, ids, |a.candidates|);
      var coverage := CoverageOf(s);
      var blocking := BlockingIssues(stems, s, coverage);
      if blocking != [] then Outcome(PracticeOnly, 0.0, blocking, [])
      else Outcome(Accepted, coverage, if s.excluded > 0 || coverage < 1.0 then [PartialCoverage] else [], s.regions)
  }

  // The same, looping over the candidates.
  method RunGate(stems: Stems, a: Analysis, ids: RegionIds) returns (o: Outcome)
    ensures o == GateOf(stems, a, ids)
  {
    hide Usable, RegionOf, VoicedCoverage, CoverageOf;
    if stems.vocalPresence < MIN_VOCAL_PRESENCE {
      return Outcome(Rejected, 0.0, [NoVocal], []);
    }
    var regions: seq<Region>, eligible, excluded: nat, total := [], 0, 0, 0;
    for i := 0 to |a.candidates|
      invariant Survey(regions, eligible, excluded, total) == SurveyOf(a, ids, i)
    {
      var candidate := a.candidates[i];
      var duration := candidate.end - candidate.start;
      total := total + duration;
      if !Usable(a, candidate) {
        excluded := excluded + 1;
        continue;
      }
      var region := RegionOf(a, candidate, ids);
      regions := regions + [region];
      if region.reference >= MIN_REFERENCE_CONFIDENCE && region.monophonic >= MIN_MONOPHONIC_CONFIDENCE
         && VoicedCoverage(a, candidate) >= MIN_REGION_VOICED_COVERAGE && !candidate.ornament
      {
        eligible := eligible + duration;
      }
    }
    var coverage := CoverageOf(Survey(regions, eligible, excluded, total));
    var blocking: seq<Issue> := [];
    if stems.separation < MIN_SEPARATION_CONFIDENCE {
      blocking := blocking + [LowConfidence];
    }
    if stems.leakage > MAX_ACCOMPANIMENT_LEAKAGE {
      blocking := blocking + [HighLeakage];
    }
    if regions == [] {
      blocking := blocking + [Issue.NoRegions];
    } else if coverage < MIN_SCORABLE_COVERAGE {
      blocking := blocking + [InsufficientCoverage];
    }
    if blocking != [] {
      return Outcome(PracticeOnly, 0.0, blocking, []);
    }
    var warnings: seq<Issue> := [];
    if excluded > 0 || coverage < 1.0 {
      warnings := warnings + [PartialCoverage];
    }
    o := Outcome(Accepted, coverage, warnings, regions);
  }

  // ----- What the gate promises ---------------------------------------------------------------------

  lemma ConfidencesFine(frames: seq<RefFrame>, what: RefFrame -> real, lo: real, hi: real)
    requires frames != [] && forall f :: f in frames ==> lo <= what(f) <= hi
    ensures lo <= Median(Each(frames, what)) <= hi
  {
    hide Median;
    var values := Each(frames, what);
    forall i | 0 <= i < |values|
      ensures lo <= values[i] <= hi
    {
      assert frames[i] in frames;
    }
    MedianWithin(values, lo, hi);
  }

  lemma RegionIsValid(a: Analysis, c: Candidate, ids: RegionIds)
    requires Ready(a) && Usable(a, c) && 0 <= c.start < c.end
    ensures ValidRegion(RegionOf(a, c, ids))
  {
    hide Median, Quantize, Keep;
    var frames := FramesOf(a, c);
    assert forall f :: f in frames ==> ValidRefFrame(f) && (f.f0.Some? ==> f.f0.value >= 0.000001) by {
      MembersReady(a, frames);
    }
    var voiced := VoicedOf(frames);
    var f0 := (f: RefFrame) => if f.f0.Some? then f.f0.value else 0.0;
    assert forall f :: f in voiced ==> 0.000001 <= f0(f) <= 20_000.0;
    ConfidencesFine(voiced, f0, 0.000001, 20_000.0);
    ConfidencesFine(frames, (f: RefFrame) => f.f0Confidence, 0.0, 1.0);
    ConfidencesFine(frames, (f: RefFrame) => f.monophonic, 0.0, 1.0);
    var pitch := Median(Each(voiced, f0));
    QuantizeMonotone(0.000001, pitch);
    QuantizeMonotone(pitch, 20_000.0);
    SmallestPositive(pitch);
    QuantizeUnit(Median(Each(frames, (f: RefFrame) => f.f0Confidence)));
    QuantizeUnit(Median(Each(frames, (f: RefFrame) => f.monophonic)));
  }

  lemma MembersReady(a: Analysis, frames: seq<RefFrame>)
    requires Ready(a) && forall f :: f in frames ==> f in a.frames
    ensures forall f :: f in frames ==> ValidRefFrame(f) && (f.f0.Some? ==> f.f0.value >= 0.000001)
  {
    hide ValidRefFrame;
    forall f | f in frames
      ensures ValidRefFrame(f) && (f.f0.Some? ==> f.f0.value >= 0.000001)
    {
      var k :| 0 <= k < |a.frames| && a.frames[k] == f;
    }
  }

  ghost predicate FineSurvey(s: Survey, a: Analysis, ids: RegionIds, n: nat)
    requires n <= |a.candidates|
  {
    && 0 <= s.eligible <= s.total && |s.regions| + s.excluded == n && (n > 0 ==> s.total > 0)
    && (forall i :: 0 <= i < |s.regions| ==>
          && ValidRegion(s.regions[i]) && s.regions[i].end <= a.duration
          && s.regions[i].id == ids(s.regions[i].start, s.regions[i].end, s.regions[i].ornament))
    && (forall i :: 0 <= i < |s.regions| ==> exists k :: 0 <= k < n && s.regions[i].start == a.candidates[k].start)
    && DistinctIds(s.regions)
    && ScorePhrase.Samples(ScorePhrase.Selected(s.regions, None)) >= s.eligible
  }

  // A region the gate counts is one the scorer's own filter keeps.
  lemma SelectedGrows(regions: seq<Region>, r: Region)
    ensures var before, after := ScorePhrase.Selected(regions, None), ScorePhrase.Selected(regions + [r], None);
            && ScorePhrase.Samples(after) == ScorePhrase.Samples(before) + if ScorePhrase.Eligible(r) then
                 r.end - r.start else 0
  {
    hide ScorePhrase.Eligible;
    var before := ScorePhrase.Selected(regions, None);
    assert (regions + [r])[..|regions|] == regions;
    assert (before + [r])[..|before|] == before;
    assert before + [] == before;
  }

  lemma NewIdIsNew(s: Survey, a: Analysis, ids: RegionIds, n: nat, r: Region)
    requires Ready(a) && Injective(ids) && n < |a.candidates| && FineSurvey(s, a, ids, n)
    requires r.start == a.candidates[n].start && r.id == ids(r.start, r.end, r.ornament)
    ensures forall i :: 0 <= i < |s.regions| ==> s.regions[i].id != r.id
  {
    hide ValidRegion, ValidRefFrame;
    forall i | 0 <= i < |s.regions|
      ensures s.regions[i].id != r.id
    {
      var k :| 0 <= k < n && s.regions[i].start == a.candidates[k].start;
      assert a.candidates[k].end <= a.candidates[n].start;
    }
  }

  lemma AddRegion(s: Survey, a: Analysis, ids: RegionIds, n: nat, r: Region, counts: bool)
    requires Ready(a) && Injective(ids) && n < |a.candidates| && FineSurvey(s, a, ids, n)
    requires var c := a.candidates[n];
             r.start == c.start && r.end == c.end && r.id == ids(r.start, r.end, r.ornament) && ValidRegion(r)
    requires counts ==> ScorePhrase.Eligible(r)
    ensures var length := r.end - r.start;
            FineSurvey(Survey(s.regions + [r], s.eligible + if counts then
                              length else 0, s.excluded, s.total + length), a, ids, n + 1)
  {
    hide ValidRegion, ValidRefFrame, Injective, ScorePhrase.Samples, ScorePhrase.Selected, ScorePhrase.Eligible;
    NewIdIsNew(s, a, ids, n, r);
    SelectedGrows(s.regions, r);
    RangeOf(a, n);
    forall i | 0 <= i < |s.regions|
      ensures exists k :: 0 <= k < n + 1 && s.regions[i].start == a.candidates[k].start
    {
      var k :| 0 <= k < n && s.regions[i].start == a.candidates[k].start;
    }
  }

  lemma RangeOf(a: Analysis, n: nat)
    requires ValidAnalysis(a) && n < |a.candidates|
    ensures 0 <= a.candidates[n].start < a.candidates[n].end <= a.duration
  {
  }

  lemma SkipCandidate(s: Survey, a: Analysis, ids: RegionIds, n: nat)
    requires Ready(a) && n < |a.candidates| && FineSurvey(s, a, ids, n)
    ensures FineSurvey(s.(excluded := s.excluded + 1,
                          total := s.total + (a.candidates[n].end - a.candidates[n].start)), a, ids, n + 1)
  {
    hide ValidRegion, ValidRefFrame, ScorePhrase.Samples, ScorePhrase.Selected;
    RangeOf(a, n);
    forall i | 0 <= i < |s.regions|
      ensures exists k :: 0 <= k < n + 1 && s.regions[i].start == a.candidates[k].start
    {
      var k :| 0 <= k < n && s.regions[i].start == a.candidates[k].start;
    }
  }

  lemma NothingSurveyed(a: Analysis, ids: RegionIds)
    ensures FineSurvey(Survey([], 0, 0, 0), a, ids, 0)
  {
  }

  lemma {:induction false} SurveyFine(a: Analysis, ids: RegionIds, n: nat)
    requires Ready(a) && Injective(ids) && n <= |a.candidates|
    ensures FineSurvey(SurveyOf(a, ids, n), a, ids, n)
  {
    hide ValidRefFrame, ValidRegion, Injective, VoicedCoverage, Usable, FineSurvey, Median, Quantize, FramesOf,
         VoicedOf;
    if n == 0 {
      NothingSurveyed(a, ids);
    } else {
      SurveyFine(a, ids, n - 1);
      var before, c := SurveyOf(a, ids, n - 1), a.candidates[n - 1];
      RangeOf(a, n - 1);
      if Usable(a, c) {
        RegionIsValid(a, c, ids);
        AddRegion(before, a, ids, n - 1, RegionOf(a, c, ids), Counts(a, c, ids));
      } else {
        SkipCandidate(before, a, ids, n - 1);
      }
    }
  }

  // Every outcome meets the manifest's contract.  An accepted song has regions that
  // the scorer will keep, at least as many samples of them as the gate counted.
  lemma GateIsSound(stems: Stems, a: Analysis, ids: RegionIds)
    requires Ready(a) && Injective(ids)
    ensures var o, s := GateOf(stems, a, ids), SurveyOf(a, ids, |a.candidates|);
            && Unit(o.coverage) && DistinctIds(o.regions)
            && (forall i :: 0 <= i < |o.regions| ==> ValidRegion(o.regions[i]) && o.regions[i].end <= a.duration)
            && (o.status == Rejected <==> stems.vocalPresence < MIN_VOCAL_PRESENCE)
            && (o.status != Accepted ==> o.regions == [] && o.coverage == 0.0 && o.issues != [] && forall i ::
                i in o.issues ==> Blocking(i))
            && (o.status == Accepted <==>
                  && stems.vocalPresence >= MIN_VOCAL_PRESENCE && stems.separation >= MIN_SEPARATION_CONFIDENCE
                  && stems.leakage <= MAX_ACCOMPANIMENT_LEAKAGE && s.regions != []
                     && CoverageOf(s) >= MIN_SCORABLE_COVERAGE)
            && (o.status == Accepted ==>
                  && o.regions == s.regions && o.coverage == CoverageOf(s)
                     && (forall i :: i in o.issues ==> !Blocking(i))
                  && (o.issues == [] <==> s.excluded == 0 && o.coverage == 1.0)
                  && ScorePhrase.Samples(ScorePhrase.Selected(o.regions, None)) >= s.eligible > 0
                  && ScorePhrase.Selected(o.regions, None) != [])
  {
    hide ValidRegion, ValidRefFrame, SurveyOf, Quantize, Injective, Ready, ScorePhrase.Selected;
    var s := SurveyOf(a, ids, |a.candidates|);
    SurveyFine(a, ids, |a.candidates|);
    if s.total > 0 {
      UnitRatio(s.eligible as real, s.total as real);
      QuantizeUnit(s.eligible as real / s.total as real);
      if s.eligible == 0 {
        ZeroCoverage(s.total);
      }
    }
  }

  lemma ZeroCoverage(total: int)
    requires total > 0
    ensures Quantize(0 as real / total as real) == 0.0
  {
  }

  // The manifest the pipeline builds around an outcome is valid, and scoring the whole of
  // an accepted one never abstains for want of regions.
  lemma IngestedIsScorable(stems: Stems, a: Analysis, ids: RegionIds, m: Manifest, u: Features,
                           q: ScorePhrase.Request, tools: ScorePhrase.Tools)
    requires Ready(a) && Injective(ids)
    requires var o := GateOf(stems, a, ids);
             && m.gate == o.status && m.coverage == o.coverage && m.regions == o.regions && m.rate == a.rate
                && m.duration == a.duration
             && (m.blockingIssue <==> exists i :: i in o.issues && Blocking(i))
             && m.source == ExtractedRecording && m.artifacts == [SourceAudio, Vocal, Accompaniment, F0]
    ensures ValidManifest(m)
    ensures ValidFeatures(u) && q.ids.None? && m.gate == Accepted && ScorePhrase.InputError(m, u, q).None? ==>
              var o := ScorePhrase.ScorePhrase(m, u, q, tools); o.Scored? ==>
                o.score.abstained != Some(Reason.NoRegions)
  {
    hide ValidRegion, ValidRefFrame, SurveyOf, CoverageOf, BlockingIssues, Injective, ScorePhrase.Selected,
         ScorePhrase.InputError, ScorePhrase.ScoreRegions, ValidFrame;
    GateIsSound(stems, a, ids);
    RegionCount(a, ids, stems);
    if ValidFeatures(u) && q.ids.None? && m.gate == Accepted && ScorePhrase.InputError(m, u, q).None? {
      ScorePhrase.SelectedValid(m, q.ids);
      ScoredForRegions(m, u, q, ScorePhrase.Selected(m.regions, None), tools);
    }
  }

  lemma RegionCount(a: Analysis, ids: RegionIds, stems: Stems)
    requires Ready(a) && Injective(ids)
    ensures |GateOf(stems, a, ids).regions| <= 100_000
  {
    hide ValidRegion, ValidRefFrame, Injective;
    SurveyFine(a, ids, |a.candidates|);
  }

  lemma ScoredForRegions(m: Manifest, u: Features, q: ScorePhrase.Request, regions: seq<Region>,
                         tools: ScorePhrase.Tools)
    requires ValidFeatures(u) && regions != [] && (forall i :: 0 <= i < |regions| ==> ValidRegion(regions[i]))
    ensures var o := ScorePhrase.ScoreRegions(m, u, q, regions, tools); o.Scored? ==>
              o.score.abstained != Some(Reason.NoRegions)
  {
    hide ValidFrame, ValidRegion, ScorePhrase.TallyOf, ValidScore, ScorePhrase.Authoritative, Median,
         ScorePhrase.Leakages;
    ScorePhrase.SamplesPositive(regions);
    ScorePhrase.TallyFine(m, u, regions, tools);
    var t := ScorePhrase.TallyOf(m, u, regions, tools);
    if t.assessed > 0 {
      NotAbstained(m, u, q, t, ScorePhrase.Ratio(ScorePhrase.CoveredSamples(regions, u),
                                                 ScorePhrase.Samples(regions)), ScorePhrase.Samples(regions));
    }
  }

  lemma NotAbstained(m: Manifest, u: Features, q: ScorePhrase.Request, t: ScorePhrase.Tally, timeline: real, total: int)
    requires t.confidences != [] && total > 0
    ensures ScorePhrase.Authoritative(m, u, q, t, timeline, total).abstained.None?
  {
  }
}
