// The control plane's rows, its object store, and what each service operation does
// to them.  An operation is one atomic database step; what it does to the object
// store happens first and survives a rollback.
//
// Digests are modelled by the content they digest.  Identifiers drawn by the server
// are numbers never drawn before; phrase identifiers are chosen by clients.  A
// deletion request is identified by the resource it deletes, of which the database
// allows one, and a deletion task by its request and the key it was created for.
module ControlPlane {
  import opened Options

  type Id = nat
  type Time = int
  type Blob = seq<int>
  type Version = nat

  datatype Media = Flac | Mpeg | Ogg | Wav
  datatype Codec = Pcm | WavPcm
  datatype Screening = Clear | MusicEx | QmcLegacy | WrongContainer
  datatype SongState = PendingUpload | Uploaded | Accepted | PracticeOnly | Rejected | SongDeleted
  // Reserved is the source's PENDING and Erased its DELETED.
  datatype AudioState = Reserved | Stored | Erased
  // Waiting is the source's PENDING.
  datatype Status = Waiting | Completed | Failed
  datatype Gate = GateAccepted | GatePracticeOnly | GateRejected
  datatype AssetKind = Transport | UserFeatures | OtherKind(name: string)
  datatype Resource = SongResource | PhraseAudio

  const JSON: nat := 0
  const CLOCK_SKEW: Time := 300
  const MAX_BACKOFF: Time := 300

  datatype Key =
    | SourceKey(tenant: Id, song: Id, sha: Blob, media: Media)
    | AssetKey(tenant: Id, song: Id, asset: Id, sha: Blob)
    | PhraseKey(tenant: Id, phrase: Id, sha: Blob, codec: Codec)

  // ----- Documents received from outside -------------------------------------------

  datatype ArtifactId = SongSource(song: Id) | AssetRef(asset: Id) | Unknown(text: string)
  datatype Pointer = Pointer(source: bool, kind: AssetKind, artifact: ArtifactId, sha: Blob, release: Option<Version>)

  datatype ManifestDoc = ManifestDoc(
    tenant: Id, song: Id, sourceSha: Blob, gate: Gate, reference: nat, artifacts: seq<Pointer>,
    scoreVersion: Version, calibration: Version, producedAt: Time, body: nat)

  datatype PhraseDoc = PhraseDoc(
    tenant: Id, session: Id, phrase: Id, sequence: nat, details: nat, codec: Codec, sha: Blob, length: int,
    calibration: Version, capturedAt: Time, idem: string)

  datatype ScoreDoc = ScoreDoc(
    tenant: Id, song: Id, session: Id, phrase: Id, reference: nat,
    userFeatures: Option<Blob>, transport: Option<Blob>,
    scoreVersion: Version, calibration: Version, modelRelease: Version, producedAt: Time, body: nat)

  // ----- Rows -----------------------------------------------------------------------

  datatype Song = Song(
    tenant: Id, sha: Option<Blob>, length: Option<int>, media: Option<Media>, key: Option<Key>,
    uploadedAt: Option<Time>, state: SongState, manifestSha: Option<ManifestDoc>, deletedAt: Option<Time>)

  datatype Asset = Asset(
    tenant: Id, song: Id, kind: AssetKind, key: Option<Key>, sha: Option<Blob>, length: int, mediaType: nat,
    release: Option<Version>, state: AudioState, uploadedAt: Option<Time>, deletedAt: Option<Time>)

  datatype Manifest = Manifest(
    tenant: Id, song: Id, doc: Option<ManifestDoc>, sha: Option<ManifestDoc>,
    scoreVersion: Version, calibration: Version, producedAt: Time, deletedAt: Option<Time>)

  datatype Session = Session(tenant: Id, song: Id, manifest: Id, calibration: Version, deletedAt: Option<Time>)

  datatype Phrase = Phrase(
    tenant: Id, session: Id, song: Id, sequence: nat, details: nat, codec: Codec, length: int, sha: Option<Blob>,
    calibration: Version, capturedAt: Time, idem: Option<string>, state: AudioState, key: Option<Key>,
    expiresAt: Time, uploadedAt: Option<Time>, deletedAt: Option<Time>)

  datatype Score = Score(
    tenant: Id, song: Id, manifest: Id, session: Id, phrase: Id, idem: Option<string>,
    doc: Option<ScoreDoc>, sha: Option<ScoreDoc>,
    scoreVersion: Version, calibration: Version, modelRelease: Version, producedAt: Time, deletedAt: Option<Time>)

  datatype RequestId = RequestId(tenant: Id, kind: Resource, resource: Id)
  datatype Request = Request(status: Status, requestedAt: Time, completedAt: Option<Time>)
  datatype TaskId = TaskId(request: RequestId, key: Option<Key>)
  datatype Task = Task(key: Option<Key>, status: Status, attempts: nat, nextAttempt: Time, completedAt: Option<Time>)

  datatype Db = Db(
    songs: map<Id, Song>, assets: map<Id, Asset>, manifests: map<Id, Manifest>, sessions: map<Id, Session>,
    phrases: map<Id, Phrase>, scores: map<Id, Score>,
    requests: map<RequestId, Request>, tasks: map<TaskId, Task>,
    store: map<Key, Blob>, next: Id)

  const EMPTY: Db := Db(map[], map[], map[], map[], map[], map[], map[], map[], map[], 0)

  datatype Settings = Settings(maxUpload: nat, ttl: Time, retryLimit: nat)

  // What an operation answers.
  datatype Answer = Created(id: Id) | Existing | NotFound | Conflict | Invalid | StoreRefused | RolledBack
      | Counted(done: nat, failed: nat)

  datatype Step = Step(db: Db, answer: Answer)

  // ----- Lookups ---------------------------------------------------------------------

  predicate LiveSong(db: Db, tenant: Id, s: Id) {
    s in db.songs && db.songs[s].tenant == tenant && db.songs[s].deletedAt.None?
  }

  predicate LiveSession(db: Db, tenant: Id, n: Id) {
    n in db.sessions && db.sessions[n].tenant == tenant && db.sessions[n].deletedAt.None?
  }

  predicate LivePhrase(db: Db, tenant: Id, p: Id) {
    p in db.phrases && db.phrases[p].tenant == tenant && db.phrases[p].deletedAt.None?
  }

  predicate LiveAsset(db: Db, tenant: Id, a: Id) {
    a in db.assets && db.assets[a].tenant == tenant && db.assets[a].deletedAt.None?
  }

  predicate LiveManifest(db: Db, tenant: Id, m: Id) {
    m in db.manifests && db.manifests[m].tenant == tenant && db.manifests[m].deletedAt.None?
  }

  predicate PayloadFits(cfg: Settings, payload: Blob, length: Option<int>, sha: Option<Blob>) {
    length.Some? && sha.Some? && |payload| <= cfg.maxUpload && |payload| == length.value && payload == sha.value
  }

  // ----- Object store -----------------------------------------------------------------

  predicate PutRefused(store: map<Key, Blob>, key: Key, payload: Blob) {
    key in store && store[key] != payload
  }

  // ----- Songs ------------------------------------------------------------------------

  predicate SameSource(row: Song, tenant: Id, sha: Blob) {
    row.tenant == tenant && row.sha == Some(sha)
  }

  predicate ExistsLiveSource(db: Db, tenant: Id, sha: Blob, same: bool, length: int, media: Media) {
    exists s :: s in db.songs && SameSource(db.songs[s], tenant, sha) && db.songs[s].deletedAt.None?
                && (same <==> (db.songs[s].length == Some(length) && db.songs[s].media == Some(media)))
  }

  function NewSong(tenant: Id, id: Id, sha: Blob, length: int, media: Media): Song {
    Song(tenant, Some(sha), Some(length), Some(media), Some(SourceKey(tenant, id, sha, media)),
         None, PendingUpload, None, None)
  }

  function CreateSong(db: Db, tenant: Id, sha: Blob, length: int, media: Media): Step {
    if ExistsLiveSource(db, tenant, sha, false, length, media) then Step(db, Conflict)
    else if ExistsLiveSource(db, tenant, sha, true, length, media) then Step(db, Existing)
    else if exists s :: s in db.songs && SameSource(db.songs[s], tenant, sha) then Step(db, Conflict)
    else Step(db.(songs := db.songs[db.next := NewSong(tenant, db.next, sha, length, media)], next := db.next + 1),
              Created(db.next))
  }

  // `commits` is false when the step fails or the process dies after the object was
  // put and before its row change is committed.
  function UploadSource(db: Db, cfg: Settings, tenant: Id, s: Id, payload: Blob, screening: Screening, now: Time,
                        commits: bool): Step
  {
    if !LiveSong(db, tenant, s) then Step(db, NotFound)
    else
      var row := db.songs[s];
      if row.state != PendingUpload && row.state != Uploaded then Step(db, Conflict)
      else if !PayloadFits(cfg, payload, row.length, row.sha) || screening != Clear || row.key.None? then
        Step(db, Invalid)
      else if row.state == Uploaded && row.key.value in db.store then Step(db, Existing)
      else if PutRefused(db.store, row.key.value, payload) then Step(db, StoreRefused)
      else
        var put := db.(store := db.store[row.key.value := payload]);
        if !commits then Step(put, RolledBack)
        else Step(put.(songs := put.songs[s := row.(state := Uploaded, uploadedAt := Some(now))]), Created(s))
  }

  // ----- Assets -----------------------------------------------------------------------

  predicate SameAsset(row: Asset, tenant: Id, s: Id, kind: AssetKind, sha: Blob, length: int, mediaType: nat,
                      release: Option<Version>)
  {
    row.tenant == tenant && row.song == s && row.kind == kind && row.sha == Some(sha) && row.length == length
    && row.mediaType == mediaType && row.release == release && row.deletedAt.None?
  }

  function NewAsset(tenant: Id, s: Id, id: Id, kind: AssetKind, sha: Blob, length: int, mediaType: nat,
                    release: Option<Version>): Asset
  {
    Asset(tenant, s, kind, Some(AssetKey(tenant, s, id, sha)), Some(sha), length, mediaType, release, Reserved, None,
          None)
  }

  function ReserveAsset(db: Db, tenant: Id, s: Id, kind: AssetKind, sha: Blob, length: int, mediaType: nat,
                        release: Option<Version>): Step
  {
    if !LiveSong(db, tenant, s) then Step(db, NotFound)
    else if exists a :: a in db.assets && SameAsset(db.assets[a], tenant, s, kind, sha, length, mediaType, release) then
      Step(db, Existing)
    else
      Step(db.(assets := db.assets[db.next := NewAsset(tenant, s, db.next, kind, sha, length, mediaType, release)],
               next := db.next + 1),
           Created(db.next))
  }

  function UploadAsset(db: Db, cfg: Settings, tenant: Id, a: Id, payload: Blob, now: Time, commits: bool): Step {
    if !LiveAsset(db, tenant, a) then Step(db, NotFound)
    else
      var row := db.assets[a];
      if !PayloadFits(cfg, payload, Some(row.length), row.sha) || row.key.None? then Step(db, Invalid)
      else if row.state == Stored && row.key.value in db.store then Step(db, Existing)
      else if row.state == Erased then Step(db, Conflict)
      else if PutRefused(db.store, row.key.value, payload) then Step(db, StoreRefused)
      else
        var put := db.(store := db.store[row.key.value := payload]);
        if !commits then Step(put, RolledBack)
        else Step(put.(assets := put.assets[a := row.(state := Stored, uploadedAt := Some(now))]), Created(a))
  }

  // ----- Manifests --------------------------------------------------------------------

  predicate PointerFits(db: Db, tenant: Id, s: Id, pointer: Pointer)
    requires s in db.songs
  {
    var song := db.songs[s];
    if pointer.source then
      pointer.artifact == SongSource(s) && song.sha == Some(pointer.sha) && song.key.Some? && song.key.value in db.store
    else
      && pointer.artifact.AssetRef?
      && LiveAsset(db, tenant, pointer.artifact.asset)
      && var asset := db.assets[pointer.artifact.asset];
         && asset.song == s && asset.state == Stored && asset.kind == pointer.kind && asset.sha == Some(pointer.sha)
         && asset.release == pointer.release && asset.key.Some? && asset.key.value in db.store
  }

  predicate ManifestFits(db: Db, tenant: Id, s: Id, doc: ManifestDoc, now: Time)
    requires s in db.songs
  {
    var song := db.songs[s];
    && doc.tenant == tenant && doc.song == s && song.sha == Some(doc.sourceSha)
    && (song.uploadedAt.Some? ==> doc.producedAt >= song.uploadedAt.value)
    && doc.producedAt <= now + CLOCK_SKEW
    && forall i :: 0 <= i < |doc.artifacts| ==> PointerFits(db, tenant, s, doc.artifacts[i])
  }

  function StateFor(gate: Gate): SongState {
    match gate
    case GateAccepted => Accepted
    case GatePracticeOnly => PracticeOnly
    case GateRejected => Rejected
  }

  predicate SameManifest(row: Manifest, tenant: Id, s: Id, doc: ManifestDoc) {
    row.tenant == tenant && row.song == s && row.sha == Some(doc)
  }

  function NewManifest(tenant: Id, s: Id, doc: ManifestDoc): Manifest {
    Manifest(tenant, s, Some(doc), Some(doc), doc.scoreVersion, doc.calibration, doc.producedAt, None)
  }

  function PublishManifest(db: Db, tenant: Id, s: Id, doc: ManifestDoc, now: Time): Step {
    if !LiveSong(db, tenant, s) then Step(db, NotFound)
    else if db.songs[s].state == PendingUpload then Step(db, Conflict)
    else if !ManifestFits(db, tenant, s, doc, now) then Step(db, Invalid)
    else if exists m ::
      m in db.manifests && SameManifest(db.manifests[m], tenant, s, doc) && db.manifests[m].deletedAt.None?
    then Step(db, Existing)
    else if exists m :: m in db.manifests && SameManifest(db.manifests[m], tenant, s, doc) then Step(db, Conflict)
    else
      var song := db.songs[s].(manifestSha := Some(doc), state := StateFor(doc.gate));
      Step(db.(manifests := db.manifests[db.next := NewManifest(tenant, s, doc)], songs := db.songs[s := song],
               next := db.next + 1),
           Created(db.next))
  }

  // ----- Sessions and phrases -----------------------------------------------------------

  function CreateSession(db: Db, tenant: Id, s: Id, m: Id, calibration: Version): Step {
    if !LiveSong(db, tenant, s) then Step(db, NotFound)
    else if !LiveManifest(db, tenant, m) || db.manifests[m].song != s || db.manifests[m].doc.None? then
      Step(db, NotFound)
    else if db.manifests[m].doc.value.gate == GateRejected then Step(db, Conflict)
    else if db.manifests[m].calibration != calibration then Step(db, Conflict)
    else Step(db.(sessions := db.sessions[db.next := Session(tenant, s, m, calibration, None)], next := db.next + 1),
              Created(db.next))
  }

  predicate SamePhrase(p: Id, row: Phrase, doc: PhraseDoc) {
    p == doc.phrase && row.session == doc.session && row.sequence == doc.sequence && row.details == doc.details
    && row.codec == doc.codec && row.length == doc.length && row.sha == Some(doc.sha)
    && row.calibration == doc.calibration && row.capturedAt == doc.capturedAt
  }

  predicate SamePhraseKey(row: Phrase, tenant: Id, idem: string) {
    row.tenant == tenant && row.idem == Some(idem)
  }

  function NewPhrase(doc: PhraseDoc, s: Id, expiresAt: Time): Phrase {
    Phrase(doc.tenant, doc.session, s, doc.sequence, doc.details, doc.codec, doc.length, Some(doc.sha), doc.calibration,
           doc.capturedAt, Some(doc.idem), Reserved, Some(PhraseKey(doc.tenant, doc.phrase, doc.sha, doc.codec)),
           expiresAt, None, None)
  }

  function ReservePhrase(db: Db, cfg: Settings, tenant: Id, doc: PhraseDoc, now: Time): Step {
    if doc.tenant != tenant then Step(db, Invalid)
    else if !LiveSession(db, tenant, doc.session) then Step(db, NotFound)
    else if doc.calibration != db.sessions[doc.session].calibration || doc.capturedAt > now + CLOCK_SKEW then
      Step(db, Invalid)
    else if exists p :: p in db.phrases && SamePhraseKey(db.phrases[p], tenant, doc.idem)
                        && (!SamePhrase(p, db.phrases[p], doc) || db.phrases[p].state == Erased
                            || db.phrases[p].deletedAt.Some?)
    then Step(db, Conflict)
    else if exists p :: p in db.phrases && SamePhraseKey(db.phrases[p], tenant, doc.idem) then Step(db, Existing)
    else if doc.phrase in db.phrases then Step(db, Conflict)
    else if exists p :: p in db.phrases && db.phrases[p].tenant == tenant && db.phrases[p].session == doc.session
                        && db.phrases[p].sequence == doc.sequence
    then Step(db, Conflict)
    else
      Step(db.(phrases := db.phrases[doc.phrase := NewPhrase(doc, db.sessions[doc.session].song, now + cfg.ttl)]),
           Created(doc.phrase))
  }

  function UploadPhrase(db: Db, cfg: Settings, tenant: Id, p: Id, payload: Blob, now: Time, commits: bool): Step {
    if !LivePhrase(db, tenant, p) then Step(db, NotFound)
    else
      var row := db.phrases[p];
      if row.state == Erased || now >= row.expiresAt then Step(db, Conflict)
      else if !PayloadFits(cfg, payload, Some(row.length), row.sha) || row.key.None? then Step(db, Invalid)
      else if row.state == Stored && row.key.value in db.store then Step(db, Existing)
      else if PutRefused(db.store, row.key.value, payload) then Step(db, StoreRefused)
      else
        var put := db.(store := db.store[row.key.value := payload]);
        if !commits then Step(put, RolledBack)
        else Step(put.(phrases := put.phrases[p := row.(state := Stored, uploadedAt := Some(now))]), Created(p))
  }

  // ----- Scores -------------------------------------------------------------------------

  predicate EvidenceMatches(row: Asset, tenant: Id, doc: ScoreDoc, kind: AssetKind, digest: Blob) {
    && row.tenant == tenant && row.song == doc.song && row.deletedAt.None? && row.kind == kind
       && row.sha == Some(digest)
    && row.mediaType == JSON && row.release.Some?
    && (kind == UserFeatures ==> row.release == Some(doc.modelRelease))
  }

  predicate Available(db: Db, row: Asset) {
    row.state == Stored && row.key.Some? && row.key.value in db.store
  }

  predicate EvidenceStored(db: Db, tenant: Id, doc: ScoreDoc, kind: AssetKind, digest: Blob) {
    exists a :: a in db.assets && EvidenceMatches(db.assets[a], tenant, doc, kind, digest)
        && Available(db, db.assets[a])
  }

  predicate EvidenceKnown(db: Db, tenant: Id, doc: ScoreDoc, kind: AssetKind, digest: Blob) {
    exists a :: a in db.assets && EvidenceMatches(db.assets[a], tenant, doc, kind, digest)
  }

  // The answer of `_require_score_evidence`; Existing stands for no objection.  The
  // transport evidence is examined first.
  function RequireEvidence(db: Db, tenant: Id, doc: ScoreDoc): Answer {
    if doc.transport.None? || doc.userFeatures.None? then Invalid
    else if !EvidenceKnown(db, tenant, doc, Transport, doc.transport.value) then Invalid
    else if !EvidenceStored(db, tenant, doc, Transport, doc.transport.value) then Conflict
    else if !EvidenceKnown(db, tenant, doc, UserFeatures, doc.userFeatures.value) then Invalid
    else if !EvidenceStored(db, tenant, doc, UserFeatures, doc.userFeatures.value) then Conflict
    else Existing
  }

  predicate SameScoreKey(row: Score, tenant: Id, idem: string) {
    row.tenant == tenant && row.idem == Some(idem)
  }

  function NewScore(doc: ScoreDoc, m: Id, idem: string): Score {
    Score(doc.tenant, doc.song, m, doc.session, doc.phrase, Some(idem), Some(doc), Some(doc),
          doc.scoreVersion, doc.calibration, doc.modelRelease, doc.producedAt, None)
  }

  // The answer for a first submission; Existing stands for no objection.
  function ScoreObjection(db: Db, tenant: Id, doc: ScoreDoc, m: Id, now: Time): Answer {
    if !LiveSong(db, tenant, doc.song) || !LiveSession(db, tenant, doc.session)
        || !LivePhrase(db, tenant, doc.phrase) then NotFound
    else
      var session, phrase := db.sessions[doc.session], db.phrases[doc.phrase];
      if session.song != doc.song || phrase.song != doc.song || phrase.session != doc.session then Invalid
      else if phrase.state != Stored then Conflict
      else if doc.calibration != session.calibration || doc.calibration != phrase.calibration then Invalid
      else if phrase.uploadedAt.Some? && doc.producedAt < phrase.uploadedAt.value then Invalid
      else if doc.producedAt > now + CLOCK_SKEW || session.manifest != m then Invalid
      else if !LiveManifest(db, tenant, m) || db.manifests[m].song != doc.song
              || db.manifests[m].scoreVersion != doc.scoreVersion || db.manifests[m].calibration != doc.calibration
              || db.manifests[m].doc.None? then Conflict
      else
        var manifest := db.manifests[m].doc.value;
        if manifest.gate != GateAccepted then Conflict
        else if manifest.reference != doc.reference || doc.producedAt < db.manifests[m].producedAt then Invalid
        else RequireEvidence(db, tenant, doc)
  }

  // What a score already submitted under the key says of a submission.
  predicate Keyed(db: Db, tenant: Id, idem: string) {
    exists c :: c in db.scores && SameScoreKey(db.scores[c], tenant, idem)
  }

  predicate KeyedDifferently(db: Db, tenant: Id, idem: string, doc: ScoreDoc) {
    exists c :: c in db.scores && SameScoreKey(db.scores[c], tenant, idem) && db.scores[c].sha != Some(doc)
  }

  predicate KeyedElsewhere(db: Db, tenant: Id, idem: string, m: Id) {
    exists c :: c in db.scores && SameScoreKey(db.scores[c], tenant, idem) && db.scores[c].manifest != m
  }

  predicate KeyedAndDeleted(db: Db, tenant: Id, idem: string) {
    exists c :: c in db.scores && SameScoreKey(db.scores[c], tenant, idem) && db.scores[c].deletedAt.Some?
  }

  function WriteScore(db: Db, tenant: Id, doc: ScoreDoc, idem: string, m: Id, now: Time): Step {
    if |idem| < 16 || |idem| > 128 || doc.tenant != tenant then Step(db, Invalid)
    else if Keyed(db, tenant, idem) then
      if KeyedDifferently(db, tenant, idem, doc) then Step(db, Conflict)
      else if KeyedElsewhere(db, tenant, idem, m) then Step(db, Invalid)
      else if KeyedAndDeleted(db, tenant, idem) then Step(db, Conflict)
      else if !LiveSong(db, tenant, doc.song) then Step(db, NotFound)
      else Step(db, RequireEvidence(db, tenant, doc))
    else if ScoreObjection(db, tenant, doc, m, now) != Existing then Step(db, ScoreObjection(db, tenant, doc, m, now))
    else Step(db.(scores := db.scores[db.next := NewScore(doc, m, idem)], next := db.next + 1), Created(db.next))
  }

  // ----- Deleting a song ------------------------------------------------------------------

  function EraseSong(row: Song, now: Time): Song {
    row.(sha := None, length := None, media := None, key := None, uploadedAt := None, manifestSha := None,
         state := SongDeleted, deletedAt := Some(now))
  }

  function EraseManifest(row: Manifest, now: Time): Manifest {
    row.(doc := None, sha := None, deletedAt := Some(now))
  }

  function EraseSession(row: Session, now: Time): Session {
    row.(deletedAt := Some(now))
  }

  function ErasePhrase(row: Phrase, now: Time): Phrase {
    row.(key := None, state := Erased, deletedAt := Some(now), sha := None, idem := None)
  }

  function EraseAsset(row: Asset, now: Time): Asset {
    row.(key := None, sha := None, state := Erased, deletedAt := Some(now))
  }

  function EraseScore(row: Score, now: Time): Score {
    row.(doc := None, sha := None, idem := None, deletedAt := Some(now))
  }

  // Each table's row after the song's deletion.
  function ManifestAfter(row: Manifest, tenant: Id, s: Id, now: Time): Manifest {
    if row.tenant == tenant && row.song == s then EraseManifest(row, now) else row
  }

  function SessionAfter(row: Session, tenant: Id, s: Id, now: Time): Session {
    if row.tenant == tenant && row.song == s then EraseSession(row, now) else row
  }

  function PhraseAfter(row: Phrase, tenant: Id, s: Id, now: Time): Phrase {
    if row.tenant == tenant && row.song == s then ErasePhrase(row, now) else row
  }

  function AssetAfter(row: Asset, tenant: Id, s: Id, now: Time): Asset {
    if row.tenant == tenant && row.song == s then EraseAsset(row, now) else row
  }

  function ScoreAfter(row: Score, tenant: Id, s: Id, now: Time): Score {
    if row.tenant == tenant && row.song == s then EraseScore(row, now) else row
  }

  // And each table.
  function ManifestsAfter(rows: map<Id, Manifest>, tenant: Id, s: Id, now: Time): map<Id, Manifest> {
    map m | m in rows :: ManifestAfter(rows[m], tenant, s, now)
  }

  function SessionsAfter(rows: map<Id, Session>, tenant: Id, s: Id, now: Time): map<Id, Session> {
    map n | n in rows :: SessionAfter(rows[n], tenant, s, now)
  }

  function PhrasesAfter(rows: map<Id, Phrase>, tenant: Id, s: Id, now: Time): map<Id, Phrase> {
    map p | p in rows :: PhraseAfter(rows[p], tenant, s, now)
  }

  function AssetsAfter(rows: map<Id, Asset>, tenant: Id, s: Id, now: Time): map<Id, Asset> {
    map a | a in rows :: AssetAfter(rows[a], tenant, s, now)
  }

  function ScoresAfter(rows: map<Id, Score>, tenant: Id, s: Id, now: Time): map<Id, Score> {
    map c | c in rows :: ScoreAfter(rows[c], tenant, s, now)
  }

  function NewTask(key: Option<Key>, now: Time): Task {
    Task(key, Waiting, 0, now, None)
  }

  // The keys on a song's rows.
  function SongKeys(db: Db, tenant: Id, s: Id): set<Key> {
    (if s in db.songs && db.songs[s].key.Some? then {db.songs[s].key.value} else {})
    + (set p | p in db.phrases && db.phrases[p].tenant == tenant && db.phrases[p].song == s && db.phrases[p].key.Some?
       :: db.phrases[p].key.value)
    + (set a | a in db.assets && db.assets[a].tenant == tenant && db.assets[a].song == s && db.assets[a].key.Some?
       :: db.assets[a].key.value)
  }

  function KeyTaskIds(r: RequestId, keys: set<Key>): set<TaskId> {
    set k | k in keys :: TaskId(r, Some(k))
  }

  // One task per key; a song without objects still gets one, with nothing to delete.
  function TaskIds(r: RequestId, keys: set<Key>): set<TaskId> {
    if keys == {} then {TaskId(r, None)} else KeyTaskIds(r, keys)
  }

  function NewTasks(ids: set<TaskId>, now: Time): map<TaskId, Task> {
    map i | i in ids :: NewTask(i.key, now)
  }

  function RequestSongDeletion(db: Db, tenant: Id, s: Id, now: Time): Step {
    var r := RequestId(tenant, SongResource, s);
    if r in db.requests then Step(db, Existing)
    else if s !in db.songs || db.songs[s].tenant != tenant then Step(db, NotFound)
    else
      Step(db.(
             songs := db.songs[s := EraseSong(db.songs[s], now)],
             manifests := ManifestsAfter(db.manifests, tenant, s, now),
             sessions := SessionsAfter(db.sessions, tenant, s, now),
             phrases := PhrasesAfter(db.phrases, tenant, s, now),
             assets := AssetsAfter(db.assets, tenant, s, now),
             scores := ScoresAfter(db.scores, tenant, s, now),
             requests := db.requests[r := Request(Waiting, now, None)],
             tasks := db.tasks + NewTasks(TaskIds(r, SongKeys(db, tenant, s)), now)),
           Created(s))
  }

  // ----- Expiring phrase audio --------------------------------------------------------------

  predicate Expired(row: Phrase, tenant: Id, now: Time) {
    row.tenant == tenant && row.deletedAt.None? && row.state != Erased && row.expiresAt <= now
  }

  // A phrase whose identifier already has a deletion request is passed over.
  predicate Expiring(db: Db, tenant: Id, now: Time, p: Id) {
    p in db.phrases && Expired(db.phrases[p], tenant, now) && RequestId(tenant, PhraseAudio, p) !in db.requests
  }

  function ExpirePhrase(row: Phrase): Phrase {
    row.(key := None, state := Erased)
  }

  function ExpiryRequest(row: Phrase, now: Time): Request {
    if row.key.Some? then Request(Waiting, now, None) else Request(Completed, now, Some(now))
  }

  function ExpireRawAudio(db: Db, tenant: Id, now: Time): Step {
    var expiring := set p | p in db.phrases && Expiring(db, tenant, now, p);
    var keyed := set p | p in expiring && db.phrases[p].key.Some?;
    Step(db.(
           phrases := map p | p in db.phrases :: if p in expiring then ExpirePhrase(db.phrases[p]) else db.phrases[p],
           requests := db.requests + map r: RequestId
               | r in (set p | p in expiring :: RequestId(tenant, PhraseAudio, p))
             :: ExpiryRequest(db.phrases[r.resource], now),
           tasks := db.tasks + NewTasks(set p | p in keyed ::
                                        TaskId(RequestId(tenant, PhraseAudio, p), db.phrases[p].key), now)),
         Counted(|expiring|, 0))
  }

  // ----- Processing deletions -----------------------------------------------------------------

  // What the store does with one delete: it may raise, with or without having removed
  // the object.
  datatype Fate = Removed | RaisedKept | RaisedGone

  predicate Due(id: TaskId, task: Task, tenant: Id, now: Time) {
    id.request.tenant == tenant && task.status == Waiting && task.nextAttempt <= now
  }

  function Power2(n: nat): nat { if n == 0 then 1 else 2 * Power2(n - 1) }

  function Backoff(attempts: nat): Time {
    if Power2(attempts) <= MAX_BACKOFF then Power2(attempts) else MAX_BACKOFF
  }

  // A task without a key has nothing to delete, so nothing can raise.
  predicate Succeeds(task: Task, fate: Fate) {
    task.key.None? || fate == Removed
  }

  function Attempt(task: Task, fate: Fate, now: Time, limit: nat): Task {
    if Succeeds(task, fate) then task.(key := None, status := Completed, completedAt := Some(now))
    else if task.attempts + 1 >= limit then task.(attempts := task.attempts + 1, status := Failed)
    else task.(attempts := task.attempts + 1, nextAttempt := now + Backoff(task.attempts + 1))
  }

  function AttemptAll(tasks: map<TaskId, Task>, due: set<TaskId>, fate: TaskId -> Fate, now: Time,
                      limit: nat): map<TaskId, Task>
  {
    map i | i in tasks :: if i in due then Attempt(tasks[i], fate(i), now, limit) else tasks[i]
  }

  function RemovedKeys(tasks: map<TaskId, Task>, due: set<TaskId>, fate: TaskId -> Fate): set<Key> {
    set i | i in due && i in tasks && tasks[i].key.Some? && fate(i) != RaisedKept :: tasks[i].key.value
  }

  function DueTasks(db: Db, tenant: Id, now: Time): set<TaskId> {
    set i | i in db.tasks && Due(i, db.tasks[i], tenant, now)
  }

  function WithStatus(tasks: map<TaskId, Task>, among: set<TaskId>, status: Status): set<TaskId> {
    set i | i in among && i in tasks && tasks[i].status == status
  }

  predicate AllCompleted(tasks: map<TaskId, Task>, r: RequestId) {
    && (exists i :: i in tasks && i.request == r)
    && (forall i :: i in tasks && i.request == r ==> tasks[i].status == Completed)
  }

  predicate SomeFailed(tasks: map<TaskId, Task>, r: RequestId) {
    exists i :: i in tasks && i.request == r && tasks[i].status == Failed
  }

  function Settle(r: RequestId, row: Request, tasks: map<TaskId, Task>, tenant: Id, now: Time): Request {
    if r.tenant != tenant || row.status != Waiting then row
    else if AllCompleted(tasks, r) then row.(status := Completed, completedAt := Some(now))
    else if SomeFailed(tasks, r) then row.(status := Failed)
    else row
  }

  // The songs whose deletion completes in this pass.
  predicate Purging(db: Db, tasks: map<TaskId, Task>, tenant: Id, s: Id) {
    var r := RequestId(tenant, SongResource, s);
    r in db.requests && db.requests[r].status == Waiting && AllCompleted(tasks, r)
  }

  predicate Purged(db: Db, tasks: map<TaskId, Task>, tenant: Id, rowTenant: Id, s: Id) {
    rowTenant == tenant && Purging(db, tasks, tenant, s)
  }

  function ProcessDeletions(db: Db, cfg: Settings, tenant: Id, now: Time, fate: TaskId -> Fate): Step {
    var due := DueTasks(db, tenant, now);
    var tasks := AttemptAll(db.tasks, due, fate, now, cfg.retryLimit);
    Step(db.(
           store := db.store - RemovedKeys(db.tasks, due, fate),
           tasks := tasks,
           requests := map r | r in db.requests :: Settle(r, db.requests[r], tasks, tenant, now),
           songs := map s | s in db.songs && !Purged(db, tasks, tenant, db.songs[s].tenant, s) :: db.songs[s],
           assets := map a | a in db.assets && !Purged(db, tasks, tenant, db.assets[a].tenant, db.assets[a].song) ::
             db.assets[a],
           manifests := map m | m in db.manifests
               && !Purged(db, tasks, tenant, db.manifests[m].tenant, db.manifests[m].song) :: db.manifests[m],
           sessions := map n | n in db.sessions
               && !Purged(db, tasks, tenant, db.sessions[n].tenant, db.sessions[n].song) :: db.sessions[n],
           phrases := map p | p in db.phrases
               && !Purged(db, tasks, tenant, db.phrases[p].tenant, db.phrases[p].song) :: db.phrases[p],
           scores := map c | c in db.scores && !Purged(db, tasks, tenant, db.scores[c].tenant, db.scores[c].song) ::
             db.scores[c]),
         Counted(|WithStatus(tasks, due, Completed)|, |WithStatus(tasks, due, Failed)|))
  }

  // A pass that dies before its commit: some of its deletes have happened, and no row
  // remembers.
  function ProcessInterrupted(db: Db, tenant: Id, now: Time, attempted: set<TaskId>, fate: TaskId -> Fate): Step {
    Step(db.(store := db.store - RemovedKeys(db.tasks, attempted * DueTasks(db, tenant, now), fate)), RolledBack)
  }

  // ----- Runs ---------------------------------------------------------------------------------

  datatype Op =
    | OpCreateSong(tenant: Id, sha: Blob, length: int, media: Media)
    | OpUploadSource(tenant: Id, song: Id, payload: Blob, screening: Screening, now: Time, commits: bool)
    | OpReserveAsset(tenant: Id, song: Id, kind: AssetKind, sha: Blob, length: int, mediaType: nat,
                     release: Option<Version>)
    | OpUploadAsset(tenant: Id, asset: Id, payload: Blob, now: Time, commits: bool)
    | OpPublishManifest(tenant: Id, song: Id, manifestDoc: ManifestDoc, now: Time)
    | OpCreateSession(tenant: Id, song: Id, manifest: Id, calibration: Version)
    | OpReservePhrase(tenant: Id, phraseDoc: PhraseDoc, now: Time)
    | OpUploadPhrase(tenant: Id, phrase: Id, payload: Blob, now: Time, commits: bool)
    | OpWriteScore(tenant: Id, scoreDoc: ScoreDoc, idem: string, manifest: Id, now: Time)
    | OpRequestSongDeletion(tenant: Id, song: Id, now: Time)
    | OpExpireRawAudio(tenant: Id, now: Time)
    | OpProcessDeletions(tenant: Id, now: Time, fate: TaskId -> Fate)
    | OpProcessInterrupted(tenant: Id, now: Time, attempted: set<TaskId>, fate: TaskId -> Fate)

  function Perform(db: Db, cfg: Settings, op: Op): Step {
    match op
    case OpCreateSong(t, sha, length, media) => CreateSong(db, t, sha, length, media)
    case OpUploadSource(t, s, payload, screening, now, commits) =>
      UploadSource(db, cfg, t, s, payload, screening, now, commits)
    case OpReserveAsset(t, s, kind, sha, length, mediaType, release) =>
      ReserveAsset(db, t, s, kind, sha, length, mediaType, release)
    case OpUploadAsset(t, a, payload, now, commits) => UploadAsset(db, cfg, t, a, payload, now, commits)
    case OpPublishManifest(t, s, doc, now) => PublishManifest(db, t, s, doc, now)
    case OpCreateSession(t, s, m, calibration) => CreateSession(db, t, s, m, calibration)
    case OpReservePhrase(t, doc, now) => ReservePhrase(db, cfg, t, doc, now)
    case OpUploadPhrase(t, p, payload, now, commits) => UploadPhrase(db, cfg, t, p, payload, now, commits)
    case OpWriteScore(t, doc, idem, m, now) => WriteScore(db, t, doc, idem, m, now)
    case OpRequestSongDeletion(t, s, now) => RequestSongDeletion(db, t, s, now)
    case OpExpireRawAudio(t, now) => ExpireRawAudio(db, t, now)
    case OpProcessDeletions(t, now, fate) => ProcessDeletions(db, cfg, t, now, fate)
    case OpProcessInterrupted(t, now, attempted, fate) => ProcessInterrupted(db, t, now, attempted, fate)
  }

  function Apply(db: Db, cfg: Settings, op: Op): Db {
    Perform(db, cfg, op).db
  }

  function Run(db: Db, cfg: Settings, ops: seq<Op>): Db
    decreases |ops|
  {
    if ops == [] then db else Apply(Run(db, cfg, ops[..|ops| - 1]), cfg, ops[|ops| - 1])
  }
}
