// Runs from the empty database, with every record the service asks for, that reach the two
// states in which audio is kept longer than it should be.
module ControlPlaneWitnesses {
  import opened ControlPlane
  import opened ControlPlaneInvariant
  import opened ControlPlaneDeletion
  import opened ControlPlaneTheorems
  import opened ControlPlaneRuns
  import opened ControlPlaneAudio
  import opened ControlPlaneMaintenance
  import opened Options

  const TENANT: Id := 0
  const PHRASE: Id := 100

  // ----- A phrase under a reused identifier never expires ---------------------------------

  // The phrase is not erased although its identifier already has a deletion request.
  ghost predicate Reused(db: Db, p: Id, tenant: Id, s: Id) {
    && p in db.phrases && db.phrases[p].tenant == tenant && db.phrases[p].song == s && db.phrases[p].state != Erased
    && RequestId(tenant, PhraseAudio, p) in db.requests
  }

  lemma LiveSongOfUnerased(db: Db, cfg: Settings, p: Id)
    requires Inv(db, cfg) && p in db.phrases && db.phrases[p].state != Erased
    ensures var row := db.phrases[p];
            row.deletedAt.None? && row.song in db.songs && db.songs[row.song].tenant == row.tenant
                && db.songs[row.song].deletedAt.None?
  {
    assert PhraseOk(p, db.phrases[p], db.sessions, db.songs);
  }

  lemma PassKeepsReused(db: Db, cfg: Settings, t: Id, now: Time, fate: TaskId -> Fate, p: Id, tenant: Id, s: Id)
    requires Inv(db, cfg) && Reused(db, p, tenant, s)
    ensures Reused(ProcessDeletions(db, cfg, t, now, fate).db, p, tenant, s)
  {
    hide Inv, ProcessDeletions, Purging, RemovedKeys, DueTasks;
    var after := ProcessDeletions(db, cfg, t, now, fate).db;
    LiveSongOfUnerased(db, cfg, p);
    PassMoves(db, cfg, t, now, fate);
    PassRestricts(db, cfg, t, now, fate);
    if Purging(db, after.tasks, t, s) {
      PurgingSong(db, cfg, after.tasks, t, s);
    }
  }

  lemma RequestingKeepsReused(db: Db, t: Id, q: Id, now: Time, p: Id, tenant: Id, s: Id)
    requires Reused(db, p, tenant, s) && !(t == tenant && q == s)
    ensures Reused(RequestSongDeletion(db, t, q, now).db, p, tenant, s)
  {
    hide RequestSongDeletion, SongKeys, NewTasks, TaskIds;
    RequestSongDeletionResult(db, t, q, now);
    if RequestSongDeletion(db, t, q, now).answer.Created? {
      DeletionErases(db, t, q, now);
    }
  }

  lemma UploadKeepsReused(db: Db, cfg: Settings, t: Id, q: Id, payload: Blob, now: Time, commits: bool, p: Id,
                          tenant: Id, s: Id)
    requires Reused(db, p, tenant, s)
    ensures Reused(UploadPhrase(db, cfg, t, q, payload, now, commits).db, p, tenant, s)
  {
    hide PayloadFits, PutRefused;
  }

  lemma StepKeepsReused(db: Db, cfg: Settings, op: Op, p: Id, tenant: Id, s: Id)
    requires Inv(db, cfg) && Reused(db, p, tenant, s)
    requires !(op.OpRequestSongDeletion? && op.tenant == tenant && op.song == s)
    ensures Reused(Apply(db, cfg, op), p, tenant, s)
  {
    hide Inv, RequestSongDeletion, ExpireRawAudio, ProcessDeletions, CreateSong, UploadSource, ReserveAsset,
         UploadAsset;
    hide PublishManifest, CreateSession, ReservePhrase, UploadPhrase, WriteScore;
    FinishedIsFinal(db, cfg, op);
    match op
    case OpRequestSongDeletion(t, q, now) => RequestingKeepsReused(db, t, q, now, p, tenant, s);
    case OpExpireRawAudio(t, now) => ExpiryPhrases(db, t, now);
    case OpProcessDeletions(t, now, fate) => PassKeepsReused(db, cfg, t, now, fate, p, tenant, s);
    case OpProcessInterrupted(_, _, _, _) =>
    case OpReservePhrase(t, doc, now) => ReservePhraseResult(db, cfg, t, doc, now);
    case OpUploadPhrase(t, q, payload, now, commits) =>
      UploadKeepsReused(db, cfg, t, q, payload, now, commits, p, tenant, s);
    case _ => OtherOpsKeepPhrases(db, cfg, op);
  }

  // However often expiry runs, and whatever else happens, short of asking for its song's
  // deletion.
  lemma {:induction false} ReusedNeverExpires(db: Db, cfg: Settings, ops: seq<Op>, p: Id, tenant: Id, s: Id)
    requires Inv(db, cfg) && cfg.retryLimit >= 1 && Reused(db, p, tenant, s)
    requires forall j :: 0 <= j < |ops| ==>
               !(ops[j].OpRequestSongDeletion? && ops[j].tenant == tenant && ops[j].song == s)
    ensures Reused(Run(db, cfg, ops), p, tenant, s)
    decreases |ops|
  {
    hide Inv, Apply, Reused;
    if ops != [] {
      ReusedNeverExpires(db, cfg, ops[..|ops| - 1], p, tenant, s);
      RunInv(db, cfg, ops[..|ops| - 1]);
      StepKeepsReused(Run(db, cfg, ops[..|ops| - 1]), cfg, ops[|ops| - 1], p, tenant, s);
    }
  }

  // ----- A song ready to be practised -----------------------------------------------------

  function NotesPointer(a: Id): Pointer {
    Pointer(false, OtherKind("notes"), AssetRef(a), [1], None)
  }

  function Published(n: Id, x: int, now: Time): ManifestDoc {
    ManifestDoc(TENANT, n, [x], GateAccepted, 0, [NotesPointer(n + 1)], 0, 0, now, 0)
  }

  // A song with its notes, its manifest and a session, from the next free identifier on.
  function SetUp(n: Id, x: int, now: Time): seq<Op> {
    [OpCreateSong(TENANT, [x], 1, Flac),
     OpUploadSource(TENANT, n, [x], Clear, now, true),
     OpReserveAsset(TENANT, n, OtherKind("notes"), [1], 1, JSON, None),
     OpUploadAsset(TENANT, n + 1, [1], now, true),
     OpPublishManifest(TENANT, n, Published(n, x, now), now),
     OpCreateSession(TENANT, n, n + 2, 0)]
  }

  lemma RunOne(db: Db, cfg: Settings, ops: seq<Op>, op: Op)
    ensures Run(db, cfg, ops + [op]) == Apply(Run(db, cfg, ops), cfg, op)
  {
    assert (ops + [op])[..|ops|] == ops;
  }

  lemma {:induction false} RunJoin(db: Db, cfg: Settings, a: seq<Op>, b: seq<Op>)
    ensures Run(db, cfg, a + b) == Run(Run(db, cfg, a), cfg, b)
    decreases |b|
  {
    hide Apply;
    if b == [] {
      assert a + b == a;
    } else {
      assert (a + b)[..|a + b| - 1] == a + b[..|b| - 1];
      RunJoin(db, cfg, a, b[..|b| - 1]);
    }
  }

  // What a set-up needs, and what it gives.
  ghost predicate Blank(db: Db, n: Id, x: int) {
    && db.next == n && db.songs == map[] && db.assets == map[] && db.manifests == map[]
    && forall k :: k in db.store ==> db.store[k] == k.sha
  }

  ghost predicate Practised(db: Db, d: Db, n: Id) {
    && d.next == n + 4 && d.phrases == db.phrases && d.requests == db.requests && d.tasks == db.tasks
    && d.songs.Keys == {n} && d.songs[n].tenant == TENANT && d.songs[n].deletedAt.None?
    && LiveSession(d, TENANT, n + 3) && d.sessions[n + 3].song == n && d.sessions[n + 3].calibration == 0
    && forall k :: k in d.store && k.PhraseKey? ==> k in db.store
  }

  lemma CreateAndUpload(db: Db, cfg: Settings, n: Id, x: int, now: Time)
    requires Blank(db, n, x) && cfg.maxUpload >= 1
    ensures var row := NewSong(TENANT, n, [x], 1, Flac);
            UploadSource(CreateSong(db, TENANT, [x], 1, Flac).db, cfg, TENANT, n, [x], Clear, now, true).db
            == db.(songs := map[n := row.(state := Uploaded, uploadedAt := Some(now))], next := n + 1,
                   store := db.store[SourceKey(TENANT, n, [x], Flac) := [x]])
  {
    var created := CreateSong(db, TENANT, [x], 1, Flac).db;
    assert created == db.(songs := map[n := NewSong(TENANT, n, [x], 1, Flac)], next := n + 1);
    assert PayloadFits(cfg, [x], Some(1), Some([x]));
  }

  lemma ReserveAndUploadNotes(db: Db, cfg: Settings, n: Id, now: Time)
    requires db.next == n + 1 && db.assets == map[] && cfg.maxUpload >= 1 && LiveSong(db, TENANT, n)
    requires forall k :: k in db.store ==> db.store[k] == k.sha
    ensures var row := NewAsset(TENANT, n, n + 1, OtherKind("notes"), [1], 1, JSON, None);
            UploadAsset(ReserveAsset(db, TENANT, n, OtherKind("notes"), [1], 1, JSON, None).db, cfg, TENANT, n + 1,
                        [1], now, true).db
            == db.(assets := map[n + 1 := row.(state := Stored, uploadedAt := Some(now))], next := n + 2,
                   store := db.store[AssetKey(TENANT, n, n + 1, [1]) := [1]])
  {
    var row := NewAsset(TENANT, n, n + 1, OtherKind("notes"), [1], 1, JSON, None);
    var reserved := ReserveAsset(db, TENANT, n, OtherKind("notes"), [1], 1, JSON, None).db;
    assert reserved == db.(assets := map[n + 1 := row], next := n + 2);
    assert PayloadFits(cfg, [1], Some(1), Some([1]));
  }

  lemma PublishAndStart(db: Db, n: Id, x: int, now: Time)
    requires db.next == n + 2 && db.manifests == map[] && LiveSong(db, TENANT, n)
    requires db.songs[n].state == Uploaded && db.songs[n].sha == Some([x]) && db.songs[n].uploadedAt == Some(now)
    requires n + 1 in db.assets && AssetKey(TENANT, n, n + 1, [1]) in db.store
    requires var row := NewAsset(TENANT, n, n + 1, OtherKind("notes"), [1], 1, JSON, None);
             db.assets[n + 1] == row.(state := Stored, uploadedAt := Some(now))
    ensures var d := CreateSession(PublishManifest(db, TENANT, n, Published(n, x, now), now).db, TENANT, n, n + 2,
                                   0).db;
            && d.next == n + 4 && d.phrases == db.phrases && d.requests == db.requests && d.tasks == db.tasks
            && d.songs.Keys == db.songs.Keys && d.songs[n].tenant == TENANT && d.songs[n].deletedAt.None?
            && LiveSession(d, TENANT, n + 3) && d.sessions[n + 3].song == n && d.sessions[n + 3].calibration == 0
            && d.store == db.store
  {
    var doc := Published(n, x, now);
    assert PointerFits(db, TENANT, n, NotesPointer(n + 1));
    assert ManifestFits(db, TENANT, n, doc, now);
    var published := PublishManifest(db, TENANT, n, doc, now);
    assert published.answer == Created(n + 2);
  }

  lemma SetUpRuns(db: Db, cfg: Settings, n: Id, x: int, now: Time)
    ensures var uploaded := UploadSource(CreateSong(db, TENANT, [x], 1, Flac).db, cfg, TENANT, n, [x], Clear, now,
                                         true).db;
            var noted := UploadAsset(ReserveAsset(uploaded, TENANT, n, OtherKind("notes"), [1], 1, JSON, None).db, cfg,
                                     TENANT, n + 1, [1], now, true).db;
            Run(db, cfg, SetUp(n, x, now)) ==
            CreateSession(PublishManifest(noted, TENANT, n, Published(n, x, now), now).db, TENANT, n, n + 2, 0).db
  {
    hide CreateSong, UploadSource, ReserveAsset, UploadAsset, PublishManifest, CreateSession, Run;
    SixSteps(db, cfg, SetUp(n, x, now));
  }

  lemma SetUpWorks(db: Db, cfg: Settings, n: Id, x: int, now: Time)
    requires Blank(db, n, x) && cfg.maxUpload >= 1
    ensures Practised(db, Run(db, cfg, SetUp(n, x, now)), n)
  {
    hide CreateSong, UploadSource, ReserveAsset, UploadAsset, PublishManifest, CreateSession, Run, SetUp;
    CreateAndUpload(db, cfg, n, x, now);
    var uploaded := UploadSource(CreateSong(db, TENANT, [x], 1, Flac).db, cfg, TENANT, n, [x], Clear, now, true).db;
    ReserveAndUploadNotes(uploaded, cfg, n, now);
    var noted := UploadAsset(ReserveAsset(uploaded, TENANT, n, OtherKind("notes"), [1], 1, JSON, None).db, cfg,
                             TENANT, n + 1, [1], now, true).db;
    PublishAndStart(noted, n, x, now);
    SetUpRuns(db, cfg, n, x, now);
  }

  lemma SixSteps(db: Db, cfg: Settings, ops: seq<Op>)
    requires |ops| == 6
    ensures Run(db, cfg, ops) ==
            Apply(Apply(Apply(Apply(Apply(Apply(db, cfg, ops[0]), cfg, ops[1]), cfg, ops[2]), cfg, ops[3]), cfg,
                        ops[4]), cfg, ops[5])
  {
    hide Apply;
    RunOne(db, cfg, [], ops[0]);
    RunOne(db, cfg, [ops[0]], ops[1]);
    RunOne(db, cfg, [ops[0], ops[1]], ops[2]);
    RunOne(db, cfg, [ops[0], ops[1], ops[2]], ops[3]);
    RunOne(db, cfg, [ops[0], ops[1], ops[2], ops[3]], ops[4]);
    RunOne(db, cfg, [ops[0], ops[1], ops[2], ops[3], ops[4]], ops[5]);
    assert [] + [ops[0]] == [ops[0]] && [ops[0]] + [ops[1]] == [ops[0], ops[1]];
    assert [ops[0], ops[1]] + [ops[2]] == [ops[0], ops[1], ops[2]];
    assert [ops[0], ops[1], ops[2]] + [ops[3]] == [ops[0], ops[1], ops[2], ops[3]];
    assert [ops[0], ops[1], ops[2], ops[3]] + [ops[4]] == [ops[0], ops[1], ops[2], ops[3], ops[4]];
    assert [ops[0], ops[1], ops[2], ops[3], ops[4]] + [ops[5]] == ops;
  }

  // ----- A phrase of it ---------------------------------------------------------------------

  function Take(n: Id, now: Time): PhraseDoc {
    PhraseDoc(TENANT, n + 3, PHRASE, 0, 0, Pcm, [7], 1, 0, now, "a phrase of its own")
  }

  lemma ReserveWorks(db: Db, cfg: Settings, n: Id, now: Time)
    requires LiveSession(db, TENANT, n + 3) && db.sessions[n + 3].song == n && db.sessions[n + 3].calibration == 0
    requires db.phrases == map[]
    ensures ReservePhrase(db, cfg, TENANT, Take(n, now), now).db
            == db.(phrases := map[PHRASE := NewPhrase(Take(n, now), n, now + cfg.ttl)])
  {
  }

  const AUDIO: Key := PhraseKey(TENANT, PHRASE, [7], Pcm)

  lemma UploadWorks(db: Db, cfg: Settings, n: Id, now: Time)
    requires cfg.maxUpload >= 1 && cfg.ttl >= 1 && AUDIO !in db.store
    requires db.phrases == map[PHRASE := NewPhrase(Take(n, now), n, now + cfg.ttl)]
    ensures var row := NewPhrase(Take(n, now), n, now + cfg.ttl);
            UploadPhrase(db, cfg, TENANT, PHRASE, [7], now, true).db
            == db.(phrases := map[PHRASE := row.(state := Stored, uploadedAt := Some(now))],
                   store := db.store[AUDIO := [7]])
  {
    assert PayloadFits(cfg, [7], Some(1), Some([7]));
  }

  lemma ExpiryWorks(db: Db, now: Time)
    requires PHRASE in db.phrases && Expiring(db, TENANT, now, PHRASE)
    ensures var d := ExpireRawAudio(db, TENANT, now).db;
            && d.songs == db.songs && d.store == db.store && d.next == db.next
            && PHRASE in d.phrases && d.phrases[PHRASE] == ExpirePhrase(db.phrases[PHRASE])
            && RequestId(TENANT, PhraseAudio, PHRASE) in d.requests
            && forall r :: r in d.requests ==> r in db.requests || r.kind == PhraseAudio
  {
    hide ExpireRawAudio, Expiring;
    ExpiryPhrases(db, TENANT, now);
    ExpiryRequests(db, TENANT, now);
  }

  // ----- Audio that outlives its song -------------------------------------------------------

  // A phrase is recorded and expires; its delete keeps raising.
  function Expiry(cfg: Settings): seq<Op> {
    SetUp(0, 1, 0)
    + [OpReservePhrase(TENANT, Take(0, 0), 0)] + [OpUploadPhrase(TENANT, PHRASE, [7], 0, true)]
    + [OpExpireRawAudio(TENANT, cfg.ttl)]
  }

  // Then its song is deleted, and the deletion completes at once.
  function OutlivingRun(cfg: Settings): seq<Op> {
    Expiry(cfg) + [OpRequestSongDeletion(TENANT, 0, cfg.ttl)]
  }

  ghost predicate ExpiredAudio(db: Db) {
    && 0 in db.songs && db.songs[0].tenant == TENANT && RequestId(TENANT, SongResource, 0) !in db.requests
    && AUDIO in db.store && AudioOf(db, TENANT, 0, AUDIO) && db.phrases[PHRASE].key != Some(AUDIO)
  }

  lemma RecordedThenExpired(ready: Db, cfg: Settings)
    requires Practised(EMPTY, ready, 0) && cfg.maxUpload >= 1 && cfg.ttl >= 1
    ensures var uploaded := UploadPhrase(ReservePhrase(ready, cfg, TENANT, Take(0, 0), 0).db, cfg, TENANT, PHRASE,
                                         [7], 0, true).db;
            ExpiredAudio(ExpireRawAudio(uploaded, TENANT, cfg.ttl).db)
  {
    hide ReservePhrase, UploadPhrase, ExpireRawAudio;
    ReserveWorks(ready, cfg, 0, 0);
    var reserved := ReservePhrase(ready, cfg, TENANT, Take(0, 0), 0).db;
    UploadWorks(reserved, cfg, 0, 0);
    ExpiryWorks(UploadPhrase(reserved, cfg, TENANT, PHRASE, [7], 0, true).db, cfg.ttl);
  }

  lemma ExpiryRuns(cfg: Settings)
    requires cfg.maxUpload >= 1 && cfg.ttl >= 1 && cfg.retryLimit >= 1
    ensures ExpiredAudio(Run(EMPTY, cfg, Expiry(cfg)))
  {
    hide ReservePhrase, UploadPhrase, ExpireRawAudio, Run, SetUp, Practised, ExpiredAudio;
    var ready := Run(EMPTY, cfg, SetUp(0, 1, 0));
    EmptyIsBlank();
    SetUpWorks(EMPTY, cfg, 0, 1, 0);
    RecordedThenExpired(ready, cfg);
    var one, two := OpReservePhrase(TENANT, Take(0, 0), 0), OpUploadPhrase(TENANT, PHRASE, [7], 0, true);
    RunOne(EMPTY, cfg, SetUp(0, 1, 0), one);
    RunOne(EMPTY, cfg, SetUp(0, 1, 0) + [one], two);
    RunOne(EMPTY, cfg, SetUp(0, 1, 0) + [one] + [two], OpExpireRawAudio(TENANT, cfg.ttl));
  }

  lemma EmptyIsBlank()
    ensures Blank(EMPTY, 0, 1)
  {
  }

  // From the empty database to a completed deletion with audio of the song still stored.
  lemma AudioOutlivesItsSongInARun(cfg: Settings)
    requires cfg.maxUpload >= 1 && cfg.ttl >= 1 && cfg.retryLimit >= 1
    ensures var before := Run(EMPTY, cfg, OutlivingRun(cfg));
            var after := ProcessDeletions(before, cfg, TENANT, cfg.ttl, OnlyOwnDeletes(TENANT, 0)).db;
            && JustCompleted(before, after, RequestId(TENANT, SongResource, 0)) && NoRowsOf(after, 0)
            && AUDIO in after.store
  {
    hide Inv, Run, Expiry, NoRowsOf, ProcessDeletions, RequestSongDeletion, JustCompleted;
    EmptyInv(cfg);
    ExpiryRuns(cfg);
    RunInv(EMPTY, cfg, Expiry(cfg));
    AudioOutlivesItsSong(Run(EMPTY, cfg, Expiry(cfg)), cfg, TENANT, 0, AUDIO, cfg.ttl);
    RunOne(EMPTY, cfg, Expiry(cfg), OpRequestSongDeletion(TENANT, 0, cfg.ttl));
  }

  // ----- An identifier used again -------------------------------------------------------------

  const ALL_REMOVED: TaskId -> Fate := (_: TaskId) => Removed

  // A phrase is reserved and expires, its song is deleted, and the deletion completes.
  function FirstUse(cfg: Settings): seq<Op> {
    SetUp(0, 1, 0) + [OpReservePhrase(TENANT, Take(0, 0), 0)] + [OpExpireRawAudio(TENANT, cfg.ttl)]
    + [OpRequestSongDeletion(TENANT, 0, cfg.ttl)] + [OpProcessDeletions(TENANT, cfg.ttl, ALL_REMOVED)]
  }

  // Then its identifier is used for a phrase of another song.
  function ReusingRun(cfg: Settings): seq<Op> {
    FirstUse(cfg) + SetUp(4, 2, cfg.ttl) + [OpReservePhrase(TENANT, Take(4, cfg.ttl), cfg.ttl)]
  }

  ghost predicate Purgeable(db: Db) {
    && db.next == 4 && db.songs.Keys == {0} && db.songs[0].tenant == TENANT
    && RequestId(TENANT, SongResource, 0) !in db.requests && RequestId(TENANT, PhraseAudio, PHRASE) in db.requests
  }

  lemma FirstUseExpires(cfg: Settings, ops: seq<Op>)
    requires cfg.maxUpload >= 1 && cfg.retryLimit >= 1
    requires ops == SetUp(0, 1, 0) + [OpReservePhrase(TENANT, Take(0, 0), 0)] + [OpExpireRawAudio(TENANT, cfg.ttl)]
    ensures Purgeable(Run(EMPTY, cfg, ops))
  {
    hide ReservePhrase, ExpireRawAudio, Run, SetUp;
    var ready := Run(EMPTY, cfg, SetUp(0, 1, 0));
    SetUpWorks(EMPTY, cfg, 0, 1, 0);
    ReserveWorks(ready, cfg, 0, 0);
    var reserved := ReservePhrase(ready, cfg, TENANT, Take(0, 0), 0).db;
    ExpiryWorks(reserved, cfg.ttl);
    var one := OpReservePhrase(TENANT, Take(0, 0), 0);
    RunOne(EMPTY, cfg, SetUp(0, 1, 0), one);
    RunOne(EMPTY, cfg, SetUp(0, 1, 0) + [one], OpExpireRawAudio(TENANT, cfg.ttl));
  }

  // A pass that completes the deletion of the only song leaves no song.
  lemma OnlySongGoes(db: Db, cfg: Settings, now: Time, fate: TaskId -> Fate)
    requires Inv(db, cfg) && db.songs.Keys == {0}
    requires JustCompleted(db, ProcessDeletions(db, cfg, TENANT, now, fate).db, RequestId(TENANT, SongResource, 0))
    ensures var d := ProcessDeletions(db, cfg, TENANT, now, fate).db;
            Inv(d, cfg) && d.next == db.next && d.songs == map[] && d.requests.Keys == db.requests.Keys
  {
    hide Inv, ProcessDeletions, RemovedKeys, DueTasks, Purging, Settle, Attempt, JustCompleted;
    var d := ProcessDeletions(db, cfg, TENANT, now, fate).db;
    CompletionPurges(db, cfg, TENANT, now, fate, RequestId(TENANT, SongResource, 0));
    ProcessDeletionsInv(db, cfg, TENANT, now, fate);
    PassMoves(db, cfg, TENANT, now, fate);
    PassRestricts(db, cfg, TENANT, now, fate);
    assert d.songs.Keys <= {0};
  }

  lemma PurgeEmpties(db: Db, cfg: Settings, now: Time)
    requires Inv(db, cfg) && cfg.retryLimit >= 1 && Purgeable(db)
    ensures var d := ProcessDeletions(RequestSongDeletion(db, TENANT, 0, now).db, cfg, TENANT, now, ALL_REMOVED).db;
            && Inv(d, cfg) && d.next == 4 && d.songs == map[] && RequestId(TENANT, PhraseAudio, PHRASE) in d.requests
  {
    hide Inv, ProcessDeletions, RequestSongDeletion, SongKeys, JustCompleted;
    var requested := RequestSongDeletion(db, TENANT, 0, now).db;
    DeletionErases(db, TENANT, 0, now);
    RequestSongDeletionInv(db, cfg, TENANT, 0, now);
    RequestCompletesNow(db, requested, cfg, TENANT, 0, now, ALL_REMOVED);
    OnlySongGoes(requested, cfg, now, ALL_REMOVED);
  }

  lemma NothingLeft(db: Db, cfg: Settings)
    requires Inv(db, cfg) && db.songs == map[]
    ensures db.assets == map[] && db.manifests == map[] && db.phrases == map[]
    ensures forall k :: k in db.store ==> db.store[k] == k.sha
  {
    ChildrenOfSongs(db, cfg);
    hide RowsOk, UniqueOk, DeletionsOk, Held;
    assert db.assets.Keys == {} && db.manifests.Keys == {} && db.phrases.Keys == {};
  }

  lemma FirstUseEmpties(cfg: Settings)
    requires cfg.maxUpload >= 1 && cfg.retryLimit >= 1
    ensures var d := Run(EMPTY, cfg, FirstUse(cfg));
            && Blank(d, 4, 2) && d.phrases == map[] && RequestId(TENANT, PhraseAudio, PHRASE) in d.requests
  {
    hide Inv, Run, SetUp, ProcessDeletions, RequestSongDeletion;
    var start := SetUp(0, 1, 0) + [OpReservePhrase(TENANT, Take(0, 0), 0)] + [OpExpireRawAudio(TENANT, cfg.ttl)];
    EmptyInv(cfg);
    FirstUseExpires(cfg, start);
    RunInv(EMPTY, cfg, start);
    PurgeEmpties(Run(EMPTY, cfg, start), cfg, cfg.ttl);
    RunOne(EMPTY, cfg, start, OpRequestSongDeletion(TENANT, 0, cfg.ttl));
    RunOne(EMPTY, cfg, start + [OpRequestSongDeletion(TENANT, 0, cfg.ttl)],
           OpProcessDeletions(TENANT, cfg.ttl, ALL_REMOVED));
    NothingLeft(Run(EMPTY, cfg, FirstUse(cfg)), cfg);
  }

  // From the empty database to a phrase that expires at twice the retention time but is
  // never erased, whatever happens next, until its own song is deleted.
  lemma ReusedNeverExpiresInARun(cfg: Settings, later: seq<Op>)
    requires cfg.maxUpload >= 1 && cfg.retryLimit >= 1
    requires forall j :: 0 <= j < |later| ==>
               !(later[j].OpRequestSongDeletion? && later[j].tenant == TENANT && later[j].song == 4)
    ensures var d := Run(EMPTY, cfg, ReusingRun(cfg));
            PHRASE in d.phrases && d.phrases[PHRASE].expiresAt == cfg.ttl + cfg.ttl
    ensures var d := Run(EMPTY, cfg, ReusingRun(cfg) + later);
            PHRASE in d.phrases && d.phrases[PHRASE].state != Erased
  {
    hide Inv, Run, SetUp, FirstUse, ReservePhrase;
    var first, ready := Run(EMPTY, cfg, FirstUse(cfg)), FirstUse(cfg) + SetUp(4, 2, cfg.ttl);
    FirstUseEmpties(cfg);
    SetUpWorks(first, cfg, 4, 2, cfg.ttl);
    RunJoin(EMPTY, cfg, FirstUse(cfg), SetUp(4, 2, cfg.ttl));
    ReserveWorks(Run(EMPTY, cfg, ready), cfg, 4, cfg.ttl);
    RunOne(EMPTY, cfg, ready, OpReservePhrase(TENANT, Take(4, cfg.ttl), cfg.ttl));
    EmptyInv(cfg);
    RunInv(EMPTY, cfg, ReusingRun(cfg));
    ReusedNeverExpires(Run(EMPTY, cfg, ReusingRun(cfg)), cfg, later, PHRASE, TENANT, 4);
    RunJoin(EMPTY, cfg, ReusingRun(cfg), later);
  }
}
