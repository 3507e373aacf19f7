// What the scorer is given and what it must produce: the contract models as predicates.
module ScoreContracts {
  import opened Matching
  import opened Options

  datatype Source = CanonicalNotes | IndependentStems | ExtractedRecording
  datatype ArtifactKind = SourceAudio | Vocal | Accompaniment | F0 | Alignment | Notes
  datatype GateStatus = Accepted | PracticeOnly | Rejected

  predicate Unit(x: real) {
    0.0 <= x <= 1.0
  }

  // ----- Inputs -------------------------------------------------------------------------

  datatype Frame = Frame(index: int, voiced: bool, f0: Option<real>, f0Confidence: real, energy: real, leakage: real)

  predicate ValidFrame(f: Frame) {
    && f.index >= 0 && Unit(f.f0Confidence) && Unit(f.leakage) && -160.0 <= f.energy <= 12.0
    && (f.voiced <==> f.f0.Some?) && (f.f0.Some? ==> 0.0 < f.f0.value <= 20_000.0)
  }

  datatype Features = Features(
    tenant: nat, session: nat, phrase: nat, rate: int, hop: int, frames: seq<Frame>,
    calibration: nat, scoreVersion: nat, producedAt: int)

  predicate ValidFeatures(u: Features) {
    && 8_000 <= u.rate <= 192_000 && 0 < u.hop <= 16_384 && u.frames != []
    && (forall i :: 0 <= i < |u.frames| ==> ValidFrame(u.frames[i]))
    && (forall i :: 0 < i < |u.frames| ==> u.frames[i].index - u.frames[i - 1].index == u.hop)
  }

  datatype Region = Region(id: nat, start: int, end: int, target: real, reference: real, monophonic: real,
                           ornament: bool)

  predicate ValidRegion(r: Region) {
    0 <= r.start < r.end && 0.0 < r.target <= 20_000.0 && Unit(r.reference) && Unit(r.monophonic)
  }

  predicate DistinctIds(regions: seq<Region>) {
    forall i, j :: 0 <= i < j < |regions| ==> regions[i].id != regions[j].id
  }

  datatype Manifest = Manifest(
    tenant: nat, song: nat, source: Source, artifacts: seq<ArtifactKind>, rate: int, duration: int, gate: GateStatus,
    coverage: real, blockingIssue: bool, regions: seq<Region>, calibration: nat, scoreVersion: nat, producedAt: int)

  predicate HasArtifacts(source: Source, artifacts: seq<ArtifactKind>) {
    match source
    case CanonicalNotes => Notes in artifacts
    case IndependentStems => Vocal in artifacts && Accompaniment in artifacts && F0 in artifacts
    case ExtractedRecording => Vocal in artifacts && F0 in artifacts
  }

  predicate ValidManifest(m: Manifest) {
    && 8_000 <= m.rate <= 192_000 && m.duration > 0 && Unit(m.coverage)
    && |m.regions| <= 100_000
    && (forall i :: 0 <= i < |m.regions| ==> ValidRegion(m.regions[i]) && m.regions[i].end <= m.duration)
    && DistinctIds(m.regions)
    && (m.gate != Accepted ==> m.regions == [] && m.coverage == 0.0)
    && (m.gate == Accepted ==> m.regions != [] && m.coverage > 0.0 && !m.blockingIssue)
    && HasArtifacts(m.source, m.artifacts)
  }

  // ----- Outputs ------------------------------------------------------------------------

  datatype MeasureUnit = Cents | Milliseconds | Ratio | Hertz | Semitones
  datatype Metric = Metric(value: real, unit: MeasureUnit, confidence: real, coverage: real)

  predicate ValidMetric(m: Metric) {
    Unit(m.confidence) && Unit(m.coverage)
  }

  datatype Evidence = Evidence(start: int, end: int)

  // A correction's identifier is derived from its region and kind; what else goes into it
  // is the same for every correction of one score.
  datatype Correction = Correction(
    region: nat, kind: Kind, start: int, end: int, severity: real, confidence: real, reference: real,
    observed: Option<Metric>, expected: Option<Metric>, evidence: seq<Evidence>)

  predicate ValidCorrection(c: Correction) {
    && 0 <= c.start < c.end && Unit(c.severity) && Unit(c.confidence) && Unit(c.reference)
    && (c.observed.Some? ==> ValidMetric(c.observed.value)) && (c.expected.Some? ==> ValidMetric(c.expected.value))
    && 1 <= |c.evidence| <= 20
    && (forall i :: 0 <= i < |c.evidence| ==> 0 <= c.evidence[i].start < c.evidence[i].end)
  }

  datatype Reason = ReferenceGate(gate: GateStatus) | NoRegions | IncompletePhrase | Leakage | NoPitch

  datatype MetricName =
    | TimelineCoverage | VoicedCoverage | PitchCenter | AbsolutePitchError | OnsetOffset | DurationDelta
    | LongToneStability | VibratoRate | VibratoDepth

  datatype Score = Score(
    tenant: nat, session: nat, phrase: nat, song: nat, coverage: real, metrics: map<MetricName, Metric>,
    corrections: seq<Correction>, abstained: Option<Reason>, scoreVersion: nat, producedAt: int)

  const MAX_CORRECTIONS: nat := 10_000

  // Everything the output contract asks but the number of corrections.
  predicate WellFormedScore(s: Score) {
    && Unit(s.coverage)
    && (forall n :: n in s.metrics ==> ValidMetric(s.metrics[n]))
    && (forall i :: 0 <= i < |s.corrections| ==> ValidCorrection(s.corrections[i]))
    && (if s.abstained.Some? then s.coverage == 0.0 && s.metrics == map[] && s.corrections == [] else s.coverage > 0.0)
  }

  predicate ValidScore(s: Score) {
    WellFormedScore(s) && |s.corrections| <= MAX_CORRECTIONS
  }
}
