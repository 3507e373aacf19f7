// The service as the object it is: methods that look rows up, change their fields and
// write to the object store, each proved to take the database where the matching
// function of `ControlPlane` says.
module ControlPlaneService {
  import opened ControlPlane
  import opened ControlPlaneInvariant
  import opened ControlPlaneDeletion
  import opened ControlPlaneMaintenance
  import opened Options

  // At most one row answers a lookup by source digest or by idempotency key.
  lemma SourceIsUnique(db: Db, cfg: Settings, tenant: Id, sha: Blob, s: Id, length: int, media: Media)
    requires Inv(db, cfg) && s in db.songs && SameSource(db.songs[s], tenant, sha) && db.songs[s].deletedAt.None?
    ensures ExistsLiveSource(db, tenant, sha, true, length, media) <==>
              db.songs[s].length == Some(length) && db.songs[s].media == Some(media)
    ensures ExistsLiveSource(db, tenant, sha, false, length, media) <==>
              !ExistsLiveSource(db, tenant, sha, true, length, media)
  {
    hide RowsOk, DeletionsOk, ObjectsOk, ManifestsUnique, PhrasesUnique, ScoresUnique;
    assert forall q :: q in db.songs && SameSource(db.songs[q], tenant, sha) ==> q == s;
  }

  lemma PhraseKeyIsUnique(db: Db, cfg: Settings, tenant: Id, idem: string, p: Id)
    requires Inv(db, cfg) && p in db.phrases && SamePhraseKey(db.phrases[p], tenant, idem)
    ensures forall q :: q in db.phrases && SamePhraseKey(db.phrases[q], tenant, idem) ==> q == p
  {
    hide RowsOk, DeletionsOk, ObjectsOk, SongsUnique, ManifestsUnique, ScoresUnique;
  }

  lemma ScoreKeyIsUnique(db: Db, cfg: Settings, tenant: Id, doc: ScoreDoc, idem: string, m: Id, c: Id)
    requires Inv(db, cfg) && c in db.scores && SameScoreKey(db.scores[c], tenant, idem)
    ensures Keyed(db, tenant, idem)
    ensures KeyedDifferently(db, tenant, idem, doc) <==> db.scores[c].sha != Some(doc)
    ensures KeyedElsewhere(db, tenant, idem, m) <==> db.scores[c].manifest != m
    ensures KeyedAndDeleted(db, tenant, idem) <==> db.scores[c].deletedAt.Some?
  {
    hide RowsOk, DeletionsOk, ObjectsOk, SongsUnique, ManifestsUnique, PhrasesUnique;
    assert forall d :: d in db.scores && SameScoreKey(db.scores[d], tenant, idem) ==> d == c;
  }

  // What a row found by such a lookup decides.
  function ReplayAnswer(db: Db, row: Score, tenant: Id, doc: ScoreDoc, m: Id): Answer {
    if row.sha != Some(doc) then Conflict
    else if row.manifest != m then Invalid
    else if row.deletedAt.Some? then Conflict
    else if !LiveSong(db, tenant, doc.song) then NotFound
    else RequireEvidence(db, tenant, doc)
  }

  lemma WriteScoreReplays(db: Db, cfg: Settings, tenant: Id, doc: ScoreDoc, idem: string, m: Id, now: Time, c: Id)
    requires Inv(db, cfg) && c in db.scores && SameScoreKey(db.scores[c], tenant, idem)
    requires 16 <= |idem| <= 128 && doc.tenant == tenant
    ensures WriteScore(db, tenant, doc, idem, m, now) == Step(db, ReplayAnswer(db, db.scores[c], tenant, doc, m))
  {
    ScoreKeyIsUnique(db, cfg, tenant, doc, idem, m, c);
    hide Inv, SameScoreKey, RequireEvidence, ScoreObjection, Keyed, KeyedDifferently, KeyedElsewhere, KeyedAndDeleted;
  }

  lemma CreateSongReplays(db: Db, cfg: Settings, tenant: Id, sha: Blob, length: int, media: Media, s: Id)
    requires Inv(db, cfg) && s in db.songs && SameSource(db.songs[s], tenant, sha) && db.songs[s].deletedAt.None?
    ensures CreateSong(db, tenant, sha, length, media)
            == Step(db, if db.songs[s].length != Some(length) || db.songs[s].media != Some(media) then
                    Conflict else Existing)
  {
    SourceIsUnique(db, cfg, tenant, sha, s, length, media);
    hide Inv, SameSource, ExistsLiveSource;
  }

  lemma ReserveAssetIs(db: Db, tenant: Id, s: Id, kind: AssetKind, sha: Blob, length: int, mediaType: nat,
                       release: Option<Version>)
    ensures ReserveAsset(db, tenant, s, kind, sha, length, mediaType, release) ==
            if !(s in db.songs && db.songs[s].tenant == tenant && db.songs[s].deletedAt.None?) then Step(db, NotFound)
            else if exists a ::
                      a in db.assets && SameAsset(db.assets[a], tenant, s, kind, sha, length, mediaType, release) then
              Step(db, Existing)
            else
              var row := Asset(tenant, s, kind, Some(AssetKey(tenant, s, db.next, sha)), Some(sha), length, mediaType,
                               release, Reserved, None, None);
              Step(db.(assets := db.assets[db.next := row], next := db.next + 1), Created(db.next))
  {
    hide SameAsset;
  }

  class Service {
    const settings: Settings
    var songs: map<Id, Song>
    var assets: map<Id, Asset>
    var manifests: map<Id, Manifest>
    var sessions: map<Id, Session>
    var phrases: map<Id, Phrase>
    var scores: map<Id, Score>
    var requests: map<RequestId, Request>
    var tasks: map<TaskId, Task>
    var store: map<Key, Blob>
    var next: Id

    ghost function Database(): Db
      reads this
    {
      Db(songs, assets, manifests, sessions, phrases, scores, requests, tasks, store, next)
    }

    ghost predicate Valid()
      reads this
    {
      settings.retryLimit >= 1 && Inv(Database(), settings)
    }

    constructor (settings: Settings)
      requires settings.retryLimit >= 1
      ensures Valid() && Database() == EMPTY && this.settings == settings
    {
      this.settings := settings;
      songs, assets, manifests, sessions, phrases, scores := map[], map[], map[], map[], map[], map[];
      requests, tasks, store, next := map[], map[], map[], 0;
      new;
      EmptyInv(settings);
    }

    // ----- Songs and assets ---------------------------------------------------------------

    method CreateSong(tenant: Id, sha: Blob, length: int, media: Media) returns (answer: Answer)
      requires Valid()
      modifies this
      ensures Step(Database(), answer) == ControlPlane.CreateSong(old(Database()), tenant, sha, length, media)
    {
      hide Inv, SameSource;
      if s :| s in songs && SameSource(songs[s], tenant, sha) && songs[s].deletedAt.None? {
        CreateSongReplays(Database(), settings, tenant, sha, length, media, s);
        if songs[s].length != Some(length) || songs[s].media != Some(media) {
          return Conflict;
        }
        return Existing;
      }
      if exists s :: s in songs && SameSource(songs[s], tenant, sha) {
        return Conflict;
      }
      var song := next;
      next := next + 1;
      songs := songs[song := Song(tenant, Some(sha), Some(length), Some(media), None, None, PendingUpload, None, None)];
      songs := songs[song := songs[song].(key := Some(SourceKey(tenant, song, sha, media)))];
      answer := Created(song);
    }

    method UploadSource(tenant: Id, s: Id, payload: Blob, screening: Screening, now: Time, commits: bool)
      returns (answer: Answer)
      requires Valid()
      modifies this`songs, this`store
      ensures Step(Database(), answer) == ControlPlane.UploadSource(old(Database()), settings, tenant, s, payload,
                                                                    screening, now, commits)
    {
      hide Inv, PayloadFits;
      if !(s in songs && songs[s].tenant == tenant && songs[s].deletedAt.None?) {
        return NotFound;
      }
      if songs[s].state != PendingUpload && songs[s].state != Uploaded {
        return Conflict;
      }
      var ok := VerifyPayload(payload, songs[s].length, songs[s].sha);
      if !ok || screening != Clear || songs[s].key.None? {
        return Invalid;
      }
      var key := songs[s].key.value;
      if songs[s].state == Uploaded && key in store {
        return Existing;
      }
      if key in store && store[key] != payload {
        return StoreRefused;
      }
      store := store[key := payload];
      if !commits {
        return RolledBack;
      }
      songs := songs[s := songs[s].(state := Uploaded, uploadedAt := Some(now))];
      answer := Created(s);
    }

    method VerifyPayload(payload: Blob, length: Option<int>, sha: Option<Blob>) returns (ok: bool)
      ensures ok <==> PayloadFits(settings, payload, length, sha)
    {
      if length.None? || sha.None? {
        return false;
      }
      if |payload| > settings.maxUpload {
        return false;
      }
      if |payload| != length.value {
        return false;
      }
      ok := payload == sha.value;
    }

    method ReserveAsset(tenant: Id, s: Id, kind: AssetKind, sha: Blob, length: int, mediaType: nat,
                        release: Option<Version>)
        returns (answer: Answer)
      requires Valid()
      modifies this`assets, this`next
      ensures Step(Database(), answer) == ControlPlane.ReserveAsset(old(Database()), tenant, s, kind, sha, length,
                                                                    mediaType, release)
    {
      hide Valid, SameAsset, ControlPlane.ReserveAsset;
      ReserveAssetIs(Database(), tenant, s, kind, sha, length, mediaType, release);
      if !(s in songs && songs[s].tenant == tenant && songs[s].deletedAt.None?) {
        return NotFound;
      }
      if exists a :: a in assets && SameAsset(assets[a], tenant, s, kind, sha, length, mediaType, release) {
        return Existing;
      }
      var asset := next;
      next := next + 1;
      assets := assets[asset := Asset(tenant, s, kind, None, Some(sha), length, mediaType, release, Reserved, None,
                                      None)];
      assets := assets[asset := assets[asset].(key := Some(AssetKey(tenant, s, asset, sha)))];
      answer := Created(asset);
    }

    method UploadAsset(tenant: Id, a: Id, payload: Blob, now: Time, commits: bool) returns (answer: Answer)
      requires Valid()
      modifies this`assets, this`store
      ensures Step(Database(), answer) == ControlPlane.UploadAsset(old(Database()), settings, tenant, a, payload,
                                                                   now, commits)
    {
      hide Inv, PayloadFits;
      if !(a in assets && assets[a].tenant == tenant && assets[a].deletedAt.None?) {
        return NotFound;
      }
      var ok := VerifyPayload(payload, Some(assets[a].length), assets[a].sha);
      if !ok || assets[a].key.None? {
        return Invalid;
      }
      var key := assets[a].key.value;
      if assets[a].state == Stored && key in store {
        return Existing;
      }
      if assets[a].state == Erased {
        return Conflict;
      }
      if key in store && store[key] != payload {
        return StoreRefused;
      }
      store := store[key := payload];
      if !commits {
        return RolledBack;
      }
      assets := assets[a := assets[a].(state := Stored, uploadedAt := Some(now))];
      answer := Created(a);
    }

    // ----- Manifests, sessions and phrases --------------------------------------------------

    // The artifacts are examined one by one.
    method ValidateManifestArtifacts(tenant: Id, s: Id, pointers: seq<Pointer>) returns (ok: bool)
      requires s in songs
      ensures ok <==> forall i :: 0 <= i < |pointers| ==> PointerFits(Database(), tenant, s, pointers[i])
    {
      for i := 0 to |pointers|
        invariant forall j :: 0 <= j < i ==> PointerFits(Database(), tenant, s, pointers[j])
      {
        var pointer := pointers[i];
        if pointer.source {
          if pointer.artifact != SongSource(s) || songs[s].sha != Some(pointer.sha) || songs[s].key.None?
              || songs[s].key.value !in store {
            assert !PointerFits(Database(), tenant, s, pointers[i]);
            return false;
          }
        } else {
          if !pointer.artifact.AssetRef? || pointer.artifact.asset !in assets {
            assert !PointerFits(Database(), tenant, s, pointers[i]);
            return false;
          }
          var asset := assets[pointer.artifact.asset];
          if asset.tenant != tenant || asset.song != s || asset.state != Stored || asset.deletedAt.Some?
              || asset.kind != pointer.kind
             || asset.sha != Some(pointer.sha) || asset.release != pointer.release || asset.key.None?
                || asset.key.value !in store
          {
            assert !PointerFits(Database(), tenant, s, pointers[i]);
            return false;
          }
        }
      }
      ok := true;
    }

    method PublishManifest(tenant: Id, s: Id, doc: ManifestDoc, now: Time) returns (answer: Answer)
      requires Valid()
      modifies this`songs, this`manifests, this`next
      ensures Step(Database(), answer) == ControlPlane.PublishManifest(old(Database()), tenant, s, doc, now)
    {
      hide Inv, SameManifest, PointerFits;
      if !(s in songs && songs[s].tenant == tenant && songs[s].deletedAt.None?) {
        return NotFound;
      }
      if songs[s].state == PendingUpload {
        return Conflict;
      }
      if doc.tenant != tenant || doc.song != s || songs[s].sha != Some(doc.sourceSha)
         || (songs[s].uploadedAt.Some? && doc.producedAt < songs[s].uploadedAt.value)
            || doc.producedAt > now + CLOCK_SKEW
      {
        return Invalid;
      }
      var ok := ValidateManifestArtifacts(tenant, s, doc.artifacts);
      if !ok {
        return Invalid;
      }
      if exists m :: m in manifests && SameManifest(manifests[m], tenant, s, doc) && manifests[m].deletedAt.None? {
        return Existing;
      }
      if exists m :: m in manifests && SameManifest(manifests[m], tenant, s, doc) {
        return Conflict;
      }
      var record := next;
      next := next + 1;
      manifests := manifests[record := NewManifest(tenant, s, doc)];
      songs := songs[s := songs[s].(manifestSha := Some(doc), state := StateFor(doc.gate))];
      answer := Created(record);
    }

    method CreatePracticeSession(tenant: Id, s: Id, m: Id, calibration: Version) returns (answer: Answer)
      requires Valid()
      modifies this`sessions, this`next
      ensures Step(Database(), answer) == CreateSession(old(Database()), tenant, s, m, calibration)
    {
      hide Inv;
      if !(s in songs && songs[s].tenant == tenant && songs[s].deletedAt.None?) {
        return NotFound;
      }
      if !(m in manifests && manifests[m].tenant == tenant && manifests[m].song == s && manifests[m].deletedAt.None?)
         || manifests[m].doc.None?
      {
        return NotFound;
      }
      if manifests[m].doc.value.gate != GateAccepted && manifests[m].doc.value.gate != GatePracticeOnly {
        return Conflict;
      }
      if manifests[m].calibration != calibration {
        return Conflict;
      }
      var session := next;
      next := next + 1;
      sessions := sessions[session := Session(tenant, s, m, calibration, None)];
      answer := Created(session);
    }

    method ReservePhrase(tenant: Id, doc: PhraseDoc, now: Time) returns (answer: Answer)
      requires Valid()
      modifies this`phrases
      ensures Step(Database(), answer) == ControlPlane.ReservePhrase(old(Database()), settings, tenant, doc, now)
    {
      hide Inv, SamePhrase;
      ghost var db := Database();
      if doc.tenant != tenant {
        return Invalid;
      }
      if !(doc.session in sessions && sessions[doc.session].tenant == tenant && sessions[doc.session].deletedAt.None?) {
        return NotFound;
      }
      var practice := sessions[doc.session];
      if doc.calibration != practice.calibration || doc.capturedAt > now + CLOCK_SKEW {
        return Invalid;
      }
      if p :| p in phrases && SamePhraseKey(phrases[p], tenant, doc.idem) {
        PhraseKeyIsUnique(db, settings, tenant, doc.idem, p);
        if !SamePhrase(p, phrases[p], doc) {
          return Conflict;
        }
        if phrases[p].state == Erased || phrases[p].deletedAt.Some? {
          return Conflict;
        }
        return Existing;
      }
      if doc.phrase in phrases {
        return Conflict;
      }
      if exists p ::
        p in phrases && phrases[p].tenant == tenant && phrases[p].session == doc.session
            && phrases[p].sequence == doc.sequence {
        return Conflict;
      }
      phrases := phrases[doc.phrase := NewPhrase(doc, practice.song, now + settings.ttl)];
      answer := Created(doc.phrase);
    }

    method UploadPhrase(tenant: Id, p: Id, payload: Blob, now: Time, commits: bool) returns (answer: Answer)
      requires Valid()
      modifies this`phrases, this`store
      ensures Step(Database(), answer) == ControlPlane.UploadPhrase(old(Database()), settings, tenant, p, payload,
                                                                    now, commits)
    {
      hide Inv, PayloadFits;
      if !(p in phrases && phrases[p].tenant == tenant && phrases[p].deletedAt.None?) {
        return NotFound;
      }
      if phrases[p].state == Erased || now >= phrases[p].expiresAt {
        return Conflict;
      }
      var ok := VerifyPayload(payload, Some(phrases[p].length), phrases[p].sha);
      if !ok || phrases[p].key.None? {
        return Invalid;
      }
      var key := phrases[p].key.value;
      if phrases[p].state == Stored && key in store {
        return Existing;
      }
      if key in store && store[key] != payload {
        return StoreRefused;
      }
      store := store[key := payload];
      if !commits {
        return RolledBack;
      }
      phrases := phrases[p := phrases[p].(state := Stored, uploadedAt := Some(now))];
      answer := Created(p);
    }

    // ----- Scores -----------------------------------------------------------------------------

    // One piece of evidence: registered at all, and then available.
    method MatchEvidence(tenant: Id, doc: ScoreDoc, kind: AssetKind, digest: Blob) returns (answer: Answer)
      ensures answer == if !EvidenceKnown(Database(), tenant, doc, kind, digest) then Invalid
                        else if !EvidenceStored(Database(), tenant, doc, kind, digest) then Conflict
                        else Existing
    {
      hide EvidenceMatches;
      var matches := set a | a in assets && EvidenceMatches(assets[a], tenant, doc, kind, digest);
      assert forall a :: a in assets && EvidenceMatches(assets[a], tenant, doc, kind, digest) <==> a in matches;
      if matches == {} {
        return Invalid;
      }
      var a :| a in matches;
      if !exists b :: b in matches && assets[b].state == Stored && assets[b].key.Some? && assets[b].key.value in store {
        return Conflict;
      }
      answer := Existing;
    }

    method RequireScoreEvidence(tenant: Id, doc: ScoreDoc) returns (answer: Answer)
      ensures answer == RequireEvidence(Database(), tenant, doc)
    {
      hide EvidenceKnown, EvidenceStored;
      if doc.transport.None? || doc.userFeatures.None? {
        return Invalid;
      }
      var expected := [(Transport, doc.transport.value), (UserFeatures, doc.userFeatures.value)];
      for i := 0 to |expected|
        invariant i > 0 ==> EvidenceKnown(Database(), tenant, doc, Transport, doc.transport.value)
        invariant i > 0 ==> EvidenceStored(Database(), tenant, doc, Transport, doc.transport.value)
        invariant i > 1 ==> EvidenceKnown(Database(), tenant, doc, UserFeatures, doc.userFeatures.value)
        invariant i > 1 ==> EvidenceStored(Database(), tenant, doc, UserFeatures, doc.userFeatures.value)
      {
        answer := MatchEvidence(tenant, doc, expected[i].0, expected[i].1);
        if answer != Existing {
          return;
        }
      }
      answer := Existing;
    }

    // A replay with the same key answers with the existing score, if nothing about it
    // has changed and its evidence is still there.
    method Replay(c: Id, tenant: Id, doc: ScoreDoc, m: Id) returns (answer: Answer)
      requires c in scores
      ensures answer == ReplayAnswer(Database(), scores[c], tenant, doc, m)
    {
      hide RequireEvidence;
      if scores[c].sha != Some(doc) {
        return Conflict;
      }
      if scores[c].manifest != m {
        return Invalid;
      }
      if scores[c].deletedAt.Some? {
        return Conflict;
      }
      if !(doc.song in songs && songs[doc.song].tenant == tenant && songs[doc.song].deletedAt.None?) {
        return NotFound;
      }
      answer := RequireScoreEvidence(tenant, doc);
    }

    method WriteScore(tenant: Id, doc: ScoreDoc, idem: string, m: Id, now: Time) returns (answer: Answer)
      requires Valid()
      modifies this`scores, this`next
      ensures Step(Database(), answer) == ControlPlane.WriteScore(old(Database()), tenant, doc, idem, m, now)
    {
      hide Inv, SameScoreKey, RequireEvidence, ReplayAnswer, ScoreObjection, NewScore;
      if |idem| < 16 || |idem| > 128 {
        return Invalid;
      }
      if doc.tenant != tenant {
        return Invalid;
      }
      if c :| c in scores && SameScoreKey(scores[c], tenant, idem) {
        WriteScoreReplays(Database(), settings, tenant, doc, idem, m, now, c);
        answer := Replay(c, tenant, doc, m);
        return;
      }
      answer := ObjectionTo(tenant, doc, m, now);
      if answer != Existing {
        return;
      }
      var record := next;
      next := next + 1;
      scores := scores[record := NewScore(doc, m, idem)];
      answer := Created(record);
    }

    method ObjectionTo(tenant: Id, doc: ScoreDoc, m: Id, now: Time) returns (answer: Answer)
      ensures answer == ScoreObjection(Database(), tenant, doc, m, now)
    {
      hide RequireEvidence;
      if !(doc.song in songs && songs[doc.song].tenant == tenant && songs[doc.song].deletedAt.None?) {
        return NotFound;
      }
      if !(doc.session in sessions && sessions[doc.session].tenant == tenant && sessions[doc.session].deletedAt.None?) {
        return NotFound;
      }
      if !(doc.phrase in phrases && phrases[doc.phrase].tenant == tenant && phrases[doc.phrase].deletedAt.None?) {
        return NotFound;
      }
      var practice, phrase := sessions[doc.session], phrases[doc.phrase];
      if practice.song != doc.song || phrase.song != doc.song || phrase.session != doc.session {
        return Invalid;
      }
      if phrase.state != Stored {
        return Conflict;
      }
      if doc.calibration != practice.calibration || doc.calibration != phrase.calibration {
        return Invalid;
      }
      if phrase.uploadedAt.Some? && doc.producedAt < phrase.uploadedAt.value {
        return Invalid;
      }
      if doc.producedAt > now + CLOCK_SKEW || practice.manifest != m {
        return Invalid;
      }
      if !(m in manifests && manifests[m].tenant == tenant && manifests[m].song == doc.song
           && manifests[m].scoreVersion == doc.scoreVersion
           && manifests[m].calibration == doc.calibration && manifests[m].deletedAt.None?)
      {
        return Conflict;
      }
      if manifests[m].doc.None? {
        return Conflict;
      }
      var manifest := manifests[m].doc.value;
      if manifest.gate != GateAccepted {
        return Conflict;
      }
      if manifest.reference != doc.reference || doc.producedAt < manifests[m].producedAt {
        return Invalid;
      }
      answer := RequireScoreEvidence(tenant, doc);
    }

    // ----- Deleting a song --------------------------------------------------------------------

    method EraseManifests(tenant: Id, s: Id, now: Time)
      modifies this`manifests
      ensures manifests == ManifestsAfter(old(manifests), tenant, s, now)
    {
      var left := set m | m in manifests && manifests[m].tenant == tenant && manifests[m].song == s;
      while left != {}
        invariant manifests.Keys == old(manifests).Keys && left <= manifests.Keys
        invariant forall m :: m in left ==> manifests[m].tenant == tenant && manifests[m].song == s
        invariant forall m :: m in manifests ==>
                    manifests[m] == if m in left then
                      old(manifests)[m] else ManifestAfter(old(manifests)[m], tenant, s, now)
        decreases |left|
      {
        var m :| m in left;
        manifests := manifests[m := manifests[m].(doc := None, sha := None, deletedAt := Some(now))];
        left := left - {m};
      }
    }

    method EraseSessions(tenant: Id, s: Id, now: Time)
      modifies this`sessions
      ensures sessions == SessionsAfter(old(sessions), tenant, s, now)
    {
      var left := set n | n in sessions && sessions[n].tenant == tenant && sessions[n].song == s;
      while left != {}
        invariant sessions.Keys == old(sessions).Keys && left <= sessions.Keys
        invariant forall n :: n in left ==> sessions[n].tenant == tenant && sessions[n].song == s
        invariant forall n :: n in sessions ==>
                    sessions[n] == if n in left then
                      old(sessions)[n] else SessionAfter(old(sessions)[n], tenant, s, now)
        decreases |left|
      {
        var n :| n in left;
        sessions := sessions[n := sessions[n].(deletedAt := Some(now))];
        left := left - {n};
      }
    }

    // Erasing a row gives up its key.
    method ErasePhrases(tenant: Id, s: Id, now: Time) returns (keys: set<Key>)
      modifies this`phrases
      ensures phrases == PhrasesAfter(old(phrases), tenant, s, now)
      ensures keys == PhraseKeysOf(old(phrases), tenant, s, {})
    {
      hide PhraseKeysOf, PhrasesErasedBut, PhrasesAfter, PhraseAfter;
      var left := set p | p in phrases && phrases[p].tenant == tenant && phrases[p].song == s;
      keys := {};
      NoPhraseKeys(phrases, tenant, s, left);
      NoPhrasesErased(phrases, tenant, s, now, left);
      while left != {}
        invariant PhrasesErasedBut(old(phrases), phrases, tenant, s, now, left)
        invariant forall p :: p in left ==>
                    p in old(phrases) && old(phrases)[p].tenant == tenant && old(phrases)[p].song == s
        invariant keys == PhraseKeysOf(old(phrases), tenant, s, left)
        decreases |left|
      {
        var p :| p in left;
        OneMorePhraseKey(old(phrases), tenant, s, left, p);
        OneMorePhraseErased(old(phrases), phrases, tenant, s, now, left, p);
        if phrases[p].key.Some? {
          keys := keys + {phrases[p].key.value};
        }
        phrases := phrases[p := phrases[p].(key := None, state := Erased, deletedAt := Some(now), sha := None,
                                            idem := None)];
        left := left - {p};
      }
      AllPhrasesErased(old(phrases), phrases, tenant, s, now);
    }

    method EraseAssets(tenant: Id, s: Id, now: Time) returns (keys: set<Key>)
      modifies this`assets
      ensures assets == AssetsAfter(old(assets), tenant, s, now)
      ensures keys == AssetKeysOf(old(assets), tenant, s, {})
    {
      hide AssetKeysOf, AssetsErasedBut, AssetsAfter, AssetAfter;
      var left := set a | a in assets && assets[a].tenant == tenant && assets[a].song == s;
      keys := {};
      NoAssetKeys(assets, tenant, s, left);
      NoAssetsErased(assets, tenant, s, now, left);
      while left != {}
        invariant AssetsErasedBut(old(assets), assets, tenant, s, now, left)
        invariant forall a :: a in left ==>
                    a in old(assets) && old(assets)[a].tenant == tenant && old(assets)[a].song == s
        invariant keys == AssetKeysOf(old(assets), tenant, s, left)
        decreases |left|
      {
        var a :| a in left;
        OneMoreAssetKey(old(assets), tenant, s, left, a);
        OneMoreAssetErased(old(assets), assets, tenant, s, now, left, a);
        if assets[a].key.Some? {
          keys := keys + {assets[a].key.value};
        }
        assets := assets[a := assets[a].(key := None, sha := None, state := Erased, deletedAt := Some(now))];
        left := left - {a};
      }
      AllAssetsErased(old(assets), assets, tenant, s, now);
    }

    method EraseScores(tenant: Id, s: Id, now: Time)
      modifies this`scores
      ensures scores == ScoresAfter(old(scores), tenant, s, now)
    {
      var left := set c | c in scores && scores[c].tenant == tenant && scores[c].song == s;
      while left != {}
        invariant scores.Keys == old(scores).Keys && left <= scores.Keys
        invariant forall c :: c in left ==> scores[c].tenant == tenant && scores[c].song == s
        invariant forall c :: c in scores ==>
                    scores[c] == if c in left then old(scores)[c] else ScoreAfter(old(scores)[c], tenant, s, now)
        decreases |left|
      {
        var c :| c in left;
        scores := scores[c := scores[c].(doc := None, sha := None, idem := None, deletedAt := Some(now))];
        left := left - {c};
      }
    }

    // One waiting task per key.
    method AddDeletionTasks(r: RequestId, keys: set<Key>, now: Time)
      requires forall k :: k in keys ==> TaskId(r, Some(k)) !in tasks
      modifies this`tasks
      ensures tasks == old(tasks) + NewTasks(KeyTaskIds(r, keys), now)
    {
      var left := keys;
      while left != {}
        invariant left <= keys
        invariant tasks == old(tasks) + NewTasks(KeyTaskIds(r, keys - left), now)
        decreases |left|
      {
        var k :| k in left;
        tasks := tasks[TaskId(r, Some(k)) := Task(Some(k), Waiting, 0, now, None)];
        left := left - {k};
      }
    }

    // Every row of the song gives up what it holds, and the keys it held are returned.
    method EraseRows(tenant: Id, s: Id, now: Time) returns (keys: set<Key>)
      requires s in songs
      modifies this`songs, this`manifests, this`sessions, this`phrases, this`assets, this`scores
      ensures songs == old(songs)[s := EraseSong(old(songs)[s], now)]
      ensures manifests == ManifestsAfter(old(manifests), tenant, s, now)
      ensures sessions == SessionsAfter(old(sessions), tenant, s, now)
      ensures phrases == PhrasesAfter(old(phrases), tenant, s, now)
      ensures assets == AssetsAfter(old(assets), tenant, s, now)
      ensures scores == ScoresAfter(old(scores), tenant, s, now)
      ensures keys == SongKeys(old(Database()), tenant, s)
    {
      hide ManifestsAfter, SessionsAfter, PhrasesAfter, AssetsAfter, ScoresAfter;
      var sourceKeys: set<Key> := if songs[s].key.Some? then {songs[s].key.value} else {};
      EraseManifests(tenant, s, now);
      EraseSessions(tenant, s, now);
      var phraseKeys := ErasePhrases(tenant, s, now);
      var assetKeys := EraseAssets(tenant, s, now);
      EraseScores(tenant, s, now);
      songs := songs[s := songs[s].(sha := None, length := None, media := None, key := None, uploadedAt := None,
                                    manifestSha := None, state := SongDeleted, deletedAt := Some(now))];
      keys := sourceKeys + phraseKeys + assetKeys;
    }

    method RequestSongDeletion(tenant: Id, s: Id, now: Time) returns (answer: Answer)
      requires Valid()
      modifies this
      ensures Step(Database(), answer) == ControlPlane.RequestSongDeletion(old(Database()), tenant, s, now)
    {
      hide Inv, ManifestsAfter, SessionsAfter, PhrasesAfter, AssetsAfter, ScoresAfter, EraseSong, NewTasks,
           KeyTaskIds, SongKeys;
      var r := RequestId(tenant, SongResource, s);
      if r in requests {
        return Existing;
      }
      if s !in songs || songs[s].tenant != tenant {
        return NotFound;
      }
      NoTasksYet(Database(), settings, r);
      requests := requests[r := Request(Waiting, now, None)];
      KeysAreOnRows(old(Database()), Database(), tenant, s);
      var keys := EraseRows(tenant, s, now);
      assert keys == SongKeys(old(Database()), tenant, s);
      AddDeletionTasks(r, keys, now);
      if keys == {} {
        LoneTask(old(tasks), r, now);
        tasks := tasks[TaskId(r, None) := Task(None, Waiting, 0, now, None)];
      }
      answer := Created(s);
    }

    // ----- Expiry and deletion passes -----------------------------------------------------------

    method ExpireOne(tenant: Id, p: Id, now: Time)
      requires p in phrases
      modifies this`phrases, this`requests, this`tasks
      ensures phrases == old(phrases)[p := ExpirePhrase(old(phrases)[p])]
      ensures requests == old(requests)[RequestId(tenant, PhraseAudio, p) := ExpiryRequest(old(phrases)[p], now)]
      ensures tasks == if old(phrases)[p].key.None? then old(tasks)
                       else old(tasks)[TaskId(RequestId(tenant, PhraseAudio, p),
                                              old(phrases)[p].key) := NewTask(old(phrases)[p].key, now)]
    {
      var r := RequestId(tenant, PhraseAudio, p);
      var key := phrases[p].key;
      requests := requests[r := Request(Waiting, now, None)];
      phrases := phrases[p := phrases[p].(key := None, state := Erased)];
      if key.Some? {
        tasks := tasks[TaskId(r, key) := Task(key, Waiting, 0, now, None)];
      } else {
        requests := requests[r := requests[r].(status := Completed, completedAt := Some(now))];
      }
    }

    method ExpireRawAudio(tenant: Id, now: Time) returns (answer: Answer)
      requires Valid()
      modifies this`phrases, this`requests, this`tasks
      ensures Step(Database(), answer) == ControlPlane.ExpireRawAudio(old(Database()), tenant, now)
    {
      hide Inv, Expired, PhrasesSoFar, RequestsSoFar, TasksSoFar, ExpirePhrase, ExpiryRequest, NewTask,
           ControlPlane.ExpireRawAudio;
      ghost var db := Database();
      var left := set p | p in phrases && Expired(phrases[p], tenant, now);
      ghost var expired, done: set<Id> := left, {};
      var created := 0;
      NothingSoFar(db, tenant, now);
      while left != {}
        invariant left <= expired && done !! left
        invariant forall p :: p in done <==>
                    p in expired && p !in left && RequestId(tenant, PhraseAudio, p) !in db.requests
        invariant created == |done|
        invariant PhrasesSoFar(db.phrases, phrases, done) && RequestsSoFar(db, requests, tenant, now, done)
        invariant TasksSoFar(db, tasks, tenant, now, done)
        decreases |left|
      {
        var p :| p in left;
        left := left - {p};
        RequestedSoFar(db, requests, tenant, now, done, p);
        if RequestId(tenant, PhraseAudio, p) !in requests {
          NoTasksYet(db, settings, RequestId(tenant, PhraseAudio, p));
          OneMoreExpired(db, phrases, requests, tasks, tenant, now, done, p);
          ExpireOne(tenant, p, now);
          done := done + {p};
          created := created + 1;
        }
      }
      assert forall p :: p in done <==> Expiring(db, tenant, now, p);
      AllExpired(db, settings, Database(), tenant, now, done);
      answer := Counted(created, 0);
    }

    // The store may have removed the object and still raise.
    method DeleteObject(i: TaskId, fate: Fate)
      requires i in tasks
      modifies this`store
      ensures store == old(store) - if tasks[i].key.Some? && fate != RaisedKept then {tasks[i].key.value} else {}
    {
      if tasks[i].key.Some? && fate != RaisedKept {
        store := store - {tasks[i].key.value};
      }
    }

    // One due task is tried.
    method AttemptOne(i: TaskId, fate: Fate, now: Time)
      requires i in tasks && tasks[i].status == Waiting
      modifies this`tasks, this`store
      ensures tasks == old(tasks)[i := Attempt(old(tasks)[i], fate, now, settings.retryLimit)]
      ensures store == old(store) - if old(tasks)[i].key.Some? && fate != RaisedKept then
                {old(tasks)[i].key.value} else {}
    {
      hide Backoff;
      DeleteObject(i, fate);
      if tasks[i].key.None? || fate == Removed {
        tasks := tasks[i := tasks[i].(key := None, status := Completed, completedAt := Some(now))];
      } else {
        tasks := tasks[i := tasks[i].(attempts := tasks[i].attempts + 1)];
        if tasks[i].attempts >= settings.retryLimit {
          tasks := tasks[i := tasks[i].(status := Failed)];
        } else {
          tasks := tasks[i := tasks[i].(nextAttempt := now + Backoff(tasks[i].attempts))];
        }
      }
    }

    // Every due task is tried once.  `fate` is what the store does with each delete.
    method AttemptDeletions(tenant: Id, now: Time, fate: TaskId -> Fate) returns (completed: nat, failed: nat)
      modifies this`tasks, this`store
      ensures var due := DueTasks(old(Database()), tenant, now);
              && tasks == AttemptAll(old(tasks), due, fate, now, settings.retryLimit)
              && store == old(store) - RemovedKeys(old(tasks), due, fate)
              && completed == |WithStatus(tasks, due, Completed)|
              && failed == |WithStatus(tasks, due, Failed)|
    {
      var left := set i | i in tasks && Due(i, tasks[i], tenant, now);
      ghost var tried: set<TaskId>, due := {}, left;
      assert due == DueTasks(Database(), tenant, now);
      assert forall i :: i in left ==> i in tasks && tasks[i].status == Waiting;
      hide Attempt, PassSoFar, RemovedKeys, WithStatus, TriedSoFar, Due, DueTasks;
      completed, failed := 0, 0;
      PassStarts(tasks, store, fate, now, settings.retryLimit);
      while left != {}
        invariant forall i :: i in due <==> i in tried || i in left
        invariant left !! tried
        invariant forall i :: i in left ==> i in old(tasks) && old(tasks)[i].status == Waiting
        invariant PassSoFar(old(tasks), old(store), tasks, store, tried, fate, now, settings.retryLimit, completed,
                            failed)
        decreases |left|
      {
        var i :| i in left;
        PassGoesOn(old(tasks), old(store), tasks, store, tried, fate, now, settings.retryLimit, completed, failed, i);
        AttemptOne(i, fate(i), now);
        left := left - {i};
        tried := tried + {i};
        if tasks[i].status == Completed {
          completed := completed + 1;
        } else if tasks[i].status == Failed {
          failed := failed + 1;
        }
      }
      assert tried == due;
      PassEnds(old(tasks), old(store), tasks, store, due, fate, now, settings.retryLimit, completed, failed);
    }

    // The rows of a song whose deletion completed, table by table and row by row.
    method PurgeScores(tenant: Id, s: Id)
      modifies this`scores
      ensures scores == ScoresWithout(old(scores), tenant, {s})
    {
      var left := set c | c in scores && scores[c].tenant == tenant && scores[c].song == s;
      while left != {}
        invariant forall c :: c in scores ==> c in old(scores) && scores[c] == old(scores)[c]
        invariant forall c :: c in old(scores) && c !in scores ==>
                    old(scores)[c].tenant == tenant && old(scores)[c].song == s
        invariant forall c :: c in left <==> c in scores && scores[c].tenant == tenant && scores[c].song == s
        decreases |left|
      {
        var c :| c in left;
        scores := scores - {c};
        left := left - {c};
      }
    }

    method PurgePhrases(tenant: Id, s: Id)
      modifies this`phrases
      ensures phrases == PhrasesWithout(old(phrases), tenant, {s})
    {
      var left := set p | p in phrases && phrases[p].tenant == tenant && phrases[p].song == s;
      while left != {}
        invariant forall p :: p in phrases ==> p in old(phrases) && phrases[p] == old(phrases)[p]
        invariant forall p :: p in old(phrases) && p !in phrases ==>
                    old(phrases)[p].tenant == tenant && old(phrases)[p].song == s
        invariant forall p :: p in left <==> p in phrases && phrases[p].tenant == tenant && phrases[p].song == s
        decreases |left|
      {
        var p :| p in left;
        phrases := phrases - {p};
        left := left - {p};
      }
    }

    method PurgeSessions(tenant: Id, s: Id)
      modifies this`sessions
      ensures sessions == SessionsWithout(old(sessions), tenant, {s})
    {
      var left := set n | n in sessions && sessions[n].tenant == tenant && sessions[n].song == s;
      while left != {}
        invariant forall n :: n in sessions ==> n in old(sessions) && sessions[n] == old(sessions)[n]
        invariant forall n :: n in old(sessions) && n !in sessions ==>
                    old(sessions)[n].tenant == tenant && old(sessions)[n].song == s
        invariant forall n :: n in left <==> n in sessions && sessions[n].tenant == tenant && sessions[n].song == s
        decreases |left|
      {
        var n :| n in left;
        sessions := sessions - {n};
        left := left - {n};
      }
    }

    method PurgeManifests(tenant: Id, s: Id)
      modifies this`manifests
      ensures manifests == ManifestsWithout(old(manifests), tenant, {s})
    {
      var left := set m | m in manifests && manifests[m].tenant == tenant && manifests[m].song == s;
      while left != {}
        invariant forall m :: m in manifests ==> m in old(manifests) && manifests[m] == old(manifests)[m]
        invariant forall m :: m in old(manifests) && m !in manifests ==>
                    old(manifests)[m].tenant == tenant && old(manifests)[m].song == s
        invariant forall m :: m in left <==> m in manifests && manifests[m].tenant == tenant && manifests[m].song == s
        decreases |left|
      {
        var m :| m in left;
        manifests := manifests - {m};
        left := left - {m};
      }
    }

    method PurgeAssets(tenant: Id, s: Id)
      modifies this`assets
      ensures assets == AssetsWithout(old(assets), tenant, {s})
    {
      var left := set a | a in assets && assets[a].tenant == tenant && assets[a].song == s;
      while left != {}
        invariant forall a :: a in assets ==> a in old(assets) && assets[a] == old(assets)[a]
        invariant forall a :: a in old(assets) && a !in assets ==>
                    old(assets)[a].tenant == tenant && old(assets)[a].song == s
        invariant forall a :: a in left <==> a in assets && assets[a].tenant == tenant && assets[a].song == s
        decreases |left|
      {
        var a :| a in left;
        assets := assets - {a};
        left := left - {a};
      }
    }

    method PurgeSong(tenant: Id, s: Id)
      modifies this`songs
      ensures songs == SongsWithout(old(songs), tenant, {s})
    {
      if s in songs && songs[s].tenant == tenant {
        songs := songs - {s};
      }
    }

    method PurgeRows(tenant: Id, s: Id)
      modifies this`scores, this`phrases, this`sessions, this`manifests, this`assets
      ensures scores == ScoresWithout(old(scores), tenant, {s})
      ensures phrases == PhrasesWithout(old(phrases), tenant, {s})
      ensures sessions == SessionsWithout(old(sessions), tenant, {s})
      ensures manifests == ManifestsWithout(old(manifests), tenant, {s})
      ensures assets == AssetsWithout(old(assets), tenant, {s})
    {
      hide ScoresWithout, PhrasesWithout, SessionsWithout, ManifestsWithout, AssetsWithout;
      PurgeScores(tenant, s);
      PurgePhrases(tenant, s);
      PurgeSessions(tenant, s);
      PurgeManifests(tenant, s);
      PurgeAssets(tenant, s);
    }

    method PurgeSongRecords(tenant: Id, s: Id)
      modifies this`scores, this`phrases, this`sessions, this`manifests, this`assets, this`songs
      ensures Database() == Purge(old(Database()), tenant, {s})
    {
      hide ScoresWithout, PhrasesWithout, SessionsWithout, ManifestsWithout, AssetsWithout, SongsWithout;
      PurgeRows(tenant, s);
      PurgeSong(tenant, s);
    }

    // Every waiting request whose tasks have finished is settled; a song's rows go when
    // its deletion completes.
    method SettleRequests(tenant: Id, now: Time)
      modifies this`requests, this`scores, this`phrases, this`sessions, this`manifests, this`assets, this`songs
      ensures var db := old(Database());
              Database() == Purge(db, tenant, SongsToPurge(db, tenant, {})).(requests := SettleAll(db.requests,
                  tasks, tenant, now, {}))
    {
      hide AllCompleted, SomeFailed, Settle, Purge;
      ghost var db := Database();
      var left := set r | r in requests && r.tenant == tenant && requests[r].status == Waiting;
      NothingSettled(db, tenant, now, left);
      while left != {}
        invariant tasks == db.tasks
        invariant forall r :: r in left ==> r in db.requests && r.tenant == tenant && db.requests[r].status == Waiting
        invariant requests == SettleAll(db.requests, tasks, tenant, now, left)
        invariant Database() == Purge(db, tenant, SongsToPurge(db, tenant, left)).(requests := requests)
        decreases |left|
      {
        var r :| r in left;
        SettleOne(db, tenant, now, left, r);
        left := left - {r};
        var mine := set i | i in tasks && i.request == r;
        Statuses(tasks, r, mine);
        if mine != {} && forall i :: i in mine ==> tasks[i].status == Completed {
          if r.kind == SongResource {
            PurgeSongRecords(tenant, r.resource);
          }
          requests := requests[r := requests[r].(status := Completed, completedAt := Some(now))];
        } else if exists i :: i in mine && tasks[i].status == Failed {
          requests := requests[r := requests[r].(status := Failed)];
        }
      }
    }

    method ProcessDeletions(tenant: Id, now: Time, fate: TaskId -> Fate) returns (answer: Answer)
      modifies this
      ensures Step(Database(), answer) == ControlPlane.ProcessDeletions(old(Database()), settings, tenant, now, fate)
    {
      hide AttemptAll, RemovedKeys, DueTasks, WithStatus, Purge, SettleAll, SongsToPurge, ControlPlane.ProcessDeletions;
      ghost var db := Database();
      var completed, failed := AttemptDeletions(tenant, now, fate);
      ghost var attempted := Database();
      SettleRequests(tenant, now);
      PassIsPurge(db, attempted, settings, tenant, now, fate);
      answer := Counted(completed, failed);
    }

    // ----- Any operation, and maintenance ----------------------------------------------------------

    // What a method call does to the database is what `Perform` says, so the invariant
    // is kept by every call, and with it everything proved of reachable databases.
    method Execute(op: Op) returns (answer: Answer)
      requires Valid()
      modifies this
      ensures Valid()
      ensures Step(Database(), answer) == Perform(old(Database()), settings, op)
    {
      hide Inv, ControlPlane.CreateSong, ControlPlane.UploadSource, ControlPlane.ReserveAsset, ControlPlane.UploadAsset;
      hide ControlPlane.PublishManifest, CreateSession, ControlPlane.ReservePhrase, ControlPlane.UploadPhrase,
           ControlPlane.WriteScore;
      hide ControlPlane.RequestSongDeletion, ControlPlane.ExpireRawAudio, ControlPlane.ProcessDeletions;
      StepInv(Database(), settings, op);
      match op
      case OpCreateSong(t, sha, length, media) => answer := CreateSong(t, sha, length, media);
      case OpUploadSource(t, s, payload, screening, now, commits) =>
        answer := UploadSource(t, s, payload, screening, now, commits);
      case OpReserveAsset(t, s, kind, sha, length, mediaType, release) =>
        answer := ReserveAsset(t, s, kind, sha, length, mediaType, release);
      case OpUploadAsset(t, a, payload, now, commits) => answer := UploadAsset(t, a, payload, now, commits);
      case OpPublishManifest(t, s, doc, now) => answer := PublishManifest(t, s, doc, now);
      case OpCreateSession(t, s, m, calibration) => answer := CreatePracticeSession(t, s, m, calibration);
      case OpReservePhrase(t, doc, now) => answer := ReservePhrase(t, doc, now);
      case OpUploadPhrase(t, p, payload, now, commits) => answer := UploadPhrase(t, p, payload, now, commits);
      case OpWriteScore(t, doc, idem, m, now) => answer := WriteScore(t, doc, idem, m, now);
      case OpRequestSongDeletion(t, s, now) => answer := RequestSongDeletion(t, s, now);
      case OpExpireRawAudio(t, now) => answer := ExpireRawAudio(t, now);
      case OpProcessDeletions(t, now, fate) => answer := ProcessDeletions(t, now, fate);
      case OpProcessInterrupted(t, now, attempted, fate) => answer := Interrupted(t, now, attempted, fate);
    }

    // A pass that dies before its commit leaves only what it did to the store.
    method Interrupted(tenant: Id, now: Time, attempted: set<TaskId>, fate: TaskId -> Fate) returns (answer: Answer)
      modifies this`store
      ensures Step(Database(), answer) == ProcessInterrupted(old(Database()), tenant, now, attempted, fate)
    {
      var left := set i | i in attempted && i in tasks && Due(i, tasks[i], tenant, now);
      ghost var tried: set<TaskId>, due := {}, left;
      NothingTried(tasks, fate, now, settings.retryLimit);
      InterruptedIs(Database(), tenant, now, attempted, fate, due);
      hide Due, DueTasks, RemovedKeys, ProcessInterrupted;
      while left != {}
        invariant forall i :: i in due <==> i in tried || i in left
        invariant store == old(store) - RemovedKeys(tasks, tried, fate)
        decreases |left|
      {
        var i :| i in left;
        RemovesOneMore(old(store), tasks, tried, fate, i);
        DeleteObject(i, fate(i));
        left := left - {i};
        tried := tried + {i};
      }
      assert tried == due;
      answer := RolledBack;
    }

    // One maintenance pass: for each tenant in turn, expire and then process, reading the
    // clock each time.
    method RunMaintenance(tenants: seq<Id>, expireAt: seq<Time>, processAt: seq<Time>, fate: TaskId -> Fate)
        returns (summary: Summary)
      requires Valid() && |expireAt| == |processAt| == |tenants|
      modifies this
      ensures Valid()
      ensures Database() == MaintainAll(old(Database()), settings, tenants, expireAt, processAt, fate).0
      ensures summary == MaintainAll(old(Database()), settings, tenants, expireAt, processAt, fate).1
    {
      hide Inv, ControlPlane.ExpireRawAudio, ControlPlane.ProcessDeletions;
      summary := Summary(0, 0, 0);
      for k := 0 to |tenants|
        invariant Valid()
        invariant (Database(), summary) == MaintainAll(old(Database()), settings, tenants[..k], expireAt[..k],
                                                       processAt[..k], fate)
      {
        assert tenants[..k + 1][..k] == tenants[..k] && expireAt[..k + 1][..k] == expireAt[..k]
               && processAt[..k + 1][..k] == processAt[..k];
        var first := Execute(OpExpireRawAudio(tenants[k], expireAt[k]));
        var second := Execute(OpProcessDeletions(tenants[k], processAt[k], fate));
        summary := Summary(summary.expired + Done(first), summary.completed + Done(second),
                           summary.failed + Undone(second));
      }
      assert tenants[..|tenants|] == tenants && expireAt[..|tenants|] == expireAt
             && processAt[..|tenants|] == processAt;
    }
  }

  // ----- Part way through a pass -------------------------------------------------------------------

  ghost predicate PhrasesSoFar(rows: map<Id, Phrase>, rows': map<Id, Phrase>, done: set<Id>) {
    rows'.Keys == rows.Keys && forall p :: p in rows ==> rows'[p] == if p in done then
      ExpirePhrase(rows[p]) else rows[p]
  }

  ghost predicate RequestsSoFar(db: Db, requests: map<RequestId, Request>, tenant: Id, now: Time, done: set<Id>) {
    && (forall r :: r in db.requests ==> r in requests && requests[r] == db.requests[r])
    && (forall r :: r in requests && r !in db.requests ==>
          && r == RequestId(tenant, PhraseAudio, r.resource) && r.resource in done && r.resource in db.phrases
          && requests[r] == ExpiryRequest(db.phrases[r.resource], now))
    && (forall p :: p in done ==> RequestId(tenant, PhraseAudio, p) in requests)
  }

  ghost predicate TasksSoFar(db: Db, tasks: map<TaskId, Task>, tenant: Id, now: Time, done: set<Id>) {
    && (forall i :: i in db.tasks ==> i in tasks && tasks[i] == db.tasks[i])
    && (forall i :: i in tasks && i !in db.tasks ==>
          && i.request == RequestId(tenant, PhraseAudio, i.request.resource) && i.request.resource in done
          && i.request.resource in db.phrases && i.key == db.phrases[i.request.resource].key && i.key.Some?
          && tasks[i] == NewTask(i.key, now))
    && (forall p :: p in done && p in db.phrases && db.phrases[p].key.Some? ==>
          TaskId(RequestId(tenant, PhraseAudio, p), db.phrases[p].key) in tasks)
  }

  lemma NothingSoFar(db: Db, tenant: Id, now: Time)
    ensures PhrasesSoFar(db.phrases, db.phrases, {}) && RequestsSoFar(db, db.requests, tenant, now, {})
    ensures TasksSoFar(db, db.tasks, tenant, now, {})
  {
  }

  lemma RequestedSoFar(db: Db, requests: map<RequestId, Request>, tenant: Id, now: Time, done: set<Id>, p: Id)
    requires RequestsSoFar(db, requests, tenant, now, done) && p !in done
    ensures RequestId(tenant, PhraseAudio, p) in requests <==> RequestId(tenant, PhraseAudio, p) in db.requests
  {
  }

  lemma OneMorePhraseExpired(before: map<Id, Phrase>, phrases: map<Id, Phrase>, done: set<Id>, p: Id)
    requires PhrasesSoFar(before, phrases, done) && p in before && p !in done
    ensures p in phrases && phrases[p] == before[p]
    ensures PhrasesSoFar(before, phrases[p := ExpirePhrase(phrases[p])], done + {p})
  {
    hide ExpirePhrase;
  }

  lemma OneMoreRequestMade(db: Db, requests: map<RequestId, Request>, tenant: Id, now: Time, done: set<Id>, p: Id)
    requires RequestsSoFar(db, requests, tenant, now, done)
    requires p in db.phrases && p !in done && RequestId(tenant, PhraseAudio, p) !in db.requests
    ensures RequestsSoFar(db, requests[RequestId(tenant, PhraseAudio, p) := ExpiryRequest(db.phrases[p], now)], tenant,
                          now, done + {p})
  {
    hide ExpiryRequest;
  }

  lemma OneMoreTaskMade(db: Db, tasks: map<TaskId, Task>, tenant: Id, now: Time, done: set<Id>, p: Id)
    requires TasksSoFar(db, tasks, tenant, now, done) && p in db.phrases && p !in done
    requires forall i :: i in db.tasks ==> i.request != RequestId(tenant, PhraseAudio, p)
    ensures var key := db.phrases[p].key;
            TasksSoFar(db, if key.None? then tasks
                           else tasks[TaskId(RequestId(tenant, PhraseAudio, p), key) := NewTask(key, now)],
                       tenant, now, done + {p})
  {
    hide NewTask;
  }

  lemma OneMoreExpired(db: Db, phrases: map<Id, Phrase>, requests: map<RequestId, Request>, tasks: map<TaskId, Task>,
                       tenant: Id, now: Time, done: set<Id>, p: Id)
    requires PhrasesSoFar(db.phrases, phrases, done) && RequestsSoFar(db, requests, tenant, now, done)
             && TasksSoFar(db, tasks, tenant, now, done)
    requires p in db.phrases && p !in done && RequestId(tenant, PhraseAudio, p) !in db.requests
    requires forall i :: i in db.tasks ==> i.request != RequestId(tenant, PhraseAudio, p)
    ensures p in phrases && phrases[p] == db.phrases[p]
    ensures PhrasesSoFar(db.phrases, phrases[p := ExpirePhrase(phrases[p])], done + {p})
    ensures RequestsSoFar(db, requests[RequestId(tenant, PhraseAudio, p) := ExpiryRequest(phrases[p], now)], tenant,
                          now, done + {p})
    ensures TasksSoFar(db, if phrases[p].key.None? then tasks
                           else tasks[TaskId(RequestId(tenant, PhraseAudio, p),
                                             phrases[p].key) := NewTask(phrases[p].key, now)],
                       tenant, now, done + {p})
  {
    hide ExpirePhrase, ExpiryRequest, NewTask, PhrasesSoFar, RequestsSoFar, TasksSoFar;
    OneMorePhraseExpired(db.phrases, phrases, done, p);
    OneMoreRequestMade(db, requests, tenant, now, done, p);
    OneMoreTaskMade(db, tasks, tenant, now, done, p);
  }

  lemma ExpiringAreKeyed(db: Db, cfg: Settings, tenant: Id, now: Time)
    requires Inv(db, cfg)
    ensures forall p :: Expiring(db, tenant, now, p) ==> p in db.phrases && db.phrases[p].key.Some?
  {
    hide UniqueOk, DeletionsOk, ObjectsOk, ScoresOk, EvidenceOk, SessionsOk, ManifestsOk;
    assert forall p :: p in db.phrases ==> PhraseOk(p, db.phrases[p], db.sessions, db.songs);
  }

  lemma AllExpired(db: Db, cfg: Settings, after: Db, tenant: Id, now: Time, done: set<Id>)
    requires Inv(db, cfg) && after == db.(phrases := after.phrases, requests := after.requests, tasks := after.tasks)
    requires forall p :: p in done <==> Expiring(db, tenant, now, p)
    requires PhrasesSoFar(db.phrases, after.phrases, done) && RequestsSoFar(db, after.requests, tenant, now, done)
    requires TasksSoFar(db, after.tasks, tenant, now, done)
    ensures Step(after, Counted(|done|, 0)) == ControlPlane.ExpireRawAudio(db, tenant, now)
  {
    hide Inv, Expiring, ControlPlane.ExpireRawAudio, PhrasesSoFar, RequestsSoFar, TasksSoFar;
    ExpiryIsChange(db, cfg, tenant, now);
    ExpiryCount(db, tenant, now, done);
    var spec := ControlPlane.ExpireRawAudio(db, tenant, now).db;
    SamePhrasesExpired(db, after, spec, tenant, now, done);
    SameRequestsMade(db, after, spec, tenant, now, done);
    ExpiringAreKeyed(db, cfg, tenant, now);
    SameTasksMade(db, after, spec, tenant, now, done);
  }

  lemma SamePhrasesExpired(db: Db, after: Db, spec: Db, tenant: Id, now: Time, done: set<Id>)
    requires ExpiryChanges(db, spec, tenant, now) && PhrasesSoFar(db.phrases, after.phrases, done)
    requires forall p :: p in done <==> Expiring(db, tenant, now, p)
    ensures after.phrases == spec.phrases
  {
    hide Expiring, ExpirePhrase;
  }

  lemma SameRequestsMade(db: Db, after: Db, spec: Db, tenant: Id, now: Time, done: set<Id>)
    requires ExpiryChanges(db, spec, tenant, now) && RequestsSoFar(db, after.requests, tenant, now, done)
    requires forall p :: p in done <==> Expiring(db, tenant, now, p)
    ensures after.requests == spec.requests
  {
    hide Expiring, ExpiryRequest;
  }

  lemma SameTasksMade(db: Db, after: Db, spec: Db, tenant: Id, now: Time, done: set<Id>)
    requires ExpiryChanges(db, spec, tenant, now) && TasksSoFar(db, after.tasks, tenant, now, done)
    requires forall p :: p in done <==> Expiring(db, tenant, now, p)
    requires forall p :: Expiring(db, tenant, now, p) ==> p in db.phrases && db.phrases[p].key.Some?
    ensures after.tasks == spec.tasks
  {
    hide Expiring, NewTask;
    assert after.tasks.Keys == spec.tasks.Keys;
  }

  lemma ExpiryCount(db: Db, tenant: Id, now: Time, done: set<Id>)
    requires forall p :: p in done <==> Expiring(db, tenant, now, p)
    ensures ControlPlane.ExpireRawAudio(db, tenant, now).answer == Counted(|done|, 0)
  {
    hide Expired, NewTasks;
    assert done == set p | p in db.phrases && Expiring(db, tenant, now, p);
  }

  ghost predicate TriedSoFar(rows: map<TaskId, Task>, rows': map<TaskId, Task>, tried: set<TaskId>,
                             fate: TaskId -> Fate, now: Time, limit: nat)
  {
    && rows'.Keys == rows.Keys
    && forall i :: i in rows ==> rows'[i] == if i in tried then Attempt(rows[i], fate(i), now, limit) else rows[i]
  }

  lemma InterruptedIs(db: Db, tenant: Id, now: Time, attempted: set<TaskId>, fate: TaskId -> Fate, due: set<TaskId>)
    requires due == set i | i in attempted && i in db.tasks && Due(i, db.tasks[i], tenant, now)
    ensures forall i :: i in due ==> i in db.tasks
    ensures ProcessInterrupted(db, tenant, now, attempted, fate) ==
            Step(db.(store := db.store - RemovedKeys(db.tasks, due, fate)), RolledBack)
  {
    hide Due, RemovedKeys;
    assert due == attempted * DueTasks(db, tenant, now);
  }

  lemma NothingTried(tasks: map<TaskId, Task>, fate: TaskId -> Fate, now: Time, limit: nat)
    ensures TriedSoFar(tasks, tasks, {}, fate, now, limit)
    ensures RemovedKeys(tasks, {}, fate) == {}
    ensures WithStatus(tasks, {}, Completed) == {} && WithStatus(tasks, {}, Failed) == {}
  {
  }

  // A pass after it has tried some of the due tasks.
  ghost predicate PassSoFar(rows: map<TaskId, Task>, objects: map<Key, Blob>, tasks: map<TaskId, Task>,
                            store: map<Key, Blob>, tried: set<TaskId>, fate: TaskId -> Fate, now: Time, limit: nat,
                            completed: int, failed: int)
  {
    && TriedSoFar(rows, tasks, tried, fate, now, limit)
    && store == objects - RemovedKeys(rows, tried, fate)
    && completed == |WithStatus(tasks, tried, Completed)| && failed == |WithStatus(tasks, tried, Failed)|
  }

  lemma PassStarts(rows: map<TaskId, Task>, objects: map<Key, Blob>, fate: TaskId -> Fate, now: Time, limit: nat)
    ensures PassSoFar(rows, objects, rows, objects, {}, fate, now, limit, 0, 0)
  {
    NothingTried(rows, fate, now, limit);
  }

  lemma PassGoesOn(rows: map<TaskId, Task>, objects: map<Key, Blob>, tasks: map<TaskId, Task>, store: map<Key, Blob>,
                   tried: set<TaskId>, fate: TaskId -> Fate, now: Time, limit: nat, completed: int, failed: int,
                   i: TaskId)
    requires PassSoFar(rows, objects, tasks, store, tried, fate, now, limit, completed, failed)
    requires i in rows && i !in tried
    ensures i in tasks && tasks[i] == rows[i]
    ensures var row := Attempt(rows[i], fate(i), now, limit);
            var left := store - if rows[i].key.Some? && fate(i) != RaisedKept then {rows[i].key.value} else {};
            PassSoFar(rows, objects, tasks[i := row], left, tried + {i}, fate, now, limit,
                      completed + if row.status == Completed then 1 else 0,
                      failed + if row.status == Failed then 1 else 0)
  {
    hide Attempt, RemovedKeys, TriedSoFar, WithStatus;
    TryOne(rows, tasks, tried, fate, now, limit, i);
    CountOne(tasks, tried, i, Attempt(rows[i], fate(i), now, limit), Completed);
    CountOne(tasks, tried, i, Attempt(rows[i], fate(i), now, limit), Failed);
    RemovesOneMore(objects, rows, tried, fate, i);
  }

  lemma PassEnds(rows: map<TaskId, Task>, objects: map<Key, Blob>, tasks: map<TaskId, Task>, store: map<Key, Blob>,
                 due: set<TaskId>, fate: TaskId -> Fate, now: Time, limit: nat, completed: int, failed: int)
    requires PassSoFar(rows, objects, tasks, store, due, fate, now, limit, completed, failed)
    requires forall i :: i in due ==> i in rows
    ensures tasks == AttemptAll(rows, due, fate, now, limit) && store == objects - RemovedKeys(rows, due, fate)
    ensures completed == |WithStatus(tasks, due, Completed)| && failed == |WithStatus(tasks, due, Failed)|
  {
    AllTried(rows, tasks, due, fate, now, limit);
  }

  lemma TryOne(rows: map<TaskId, Task>, rows': map<TaskId, Task>, tried: set<TaskId>, fate: TaskId -> Fate,
               now: Time, limit: nat, i: TaskId)
    requires TriedSoFar(rows, rows', tried, fate, now, limit) && i in rows && i !in tried
    ensures i in rows' && rows'[i] == rows[i]
    ensures TriedSoFar(rows, rows'[i := Attempt(rows[i], fate(i), now, limit)], tried + {i}, fate, now, limit)
  {
    hide Attempt;
  }

  lemma CountOne(tasks: map<TaskId, Task>, tried: set<TaskId>, i: TaskId, task: Task, status: Status)
    requires i !in tried
    ensures |WithStatus(tasks[i := task], tried + {i}, status)| ==
            |WithStatus(tasks, tried, status)| + if task.status == status then 1 else 0
  {
    var before := WithStatus(tasks, tried, status);
    assert WithStatus(tasks[i := task], tried + {i}, status) == if task.status == status then before + {i} else before;
  }

  lemma AllTried(rows: map<TaskId, Task>, rows': map<TaskId, Task>, due: set<TaskId>, fate: TaskId -> Fate,
                 now: Time, limit: nat)
    requires TriedSoFar(rows, rows', due, fate, now, limit) && forall i :: i in due ==> i in rows
    ensures rows' == AttemptAll(rows, due, fate, now, limit)
  {
    hide Attempt;
  }

  lemma RemovesOneMore(store: map<Key, Blob>, tasks: map<TaskId, Task>, due: set<TaskId>, fate: TaskId -> Fate,
                       i: TaskId)
    requires i in tasks
    ensures store - RemovedKeys(tasks, due + {i}, fate)
            == (store - RemovedKeys(tasks, due, fate)) - if tasks[i].key.Some? && fate(i) != RaisedKept then
              {tasks[i].key.value} else {}
  {
    assert RemovedKeys(tasks, due + {i}, fate)
           == RemovedKeys(tasks, due, fate) + if tasks[i].key.Some? && fate(i) != RaisedKept then
             {tasks[i].key.value} else {};
  }

  // A table without the rows of the given songs of a tenant.
  function SongsWithout(rows: map<Id, Song>, tenant: Id, gone: set<Id>): map<Id, Song> {
    map s | s in rows && !(rows[s].tenant == tenant && s in gone) :: rows[s]
  }

  function AssetsWithout(rows: map<Id, Asset>, tenant: Id, gone: set<Id>): map<Id, Asset> {
    map a | a in rows && !(rows[a].tenant == tenant && rows[a].song in gone) :: rows[a]
  }

  function ManifestsWithout(rows: map<Id, Manifest>, tenant: Id, gone: set<Id>): map<Id, Manifest> {
    map m | m in rows && !(rows[m].tenant == tenant && rows[m].song in gone) :: rows[m]
  }

  function SessionsWithout(rows: map<Id, Session>, tenant: Id, gone: set<Id>): map<Id, Session> {
    map n | n in rows && !(rows[n].tenant == tenant && rows[n].song in gone) :: rows[n]
  }

  function PhrasesWithout(rows: map<Id, Phrase>, tenant: Id, gone: set<Id>): map<Id, Phrase> {
    map p | p in rows && !(rows[p].tenant == tenant && rows[p].song in gone) :: rows[p]
  }

  function ScoresWithout(rows: map<Id, Score>, tenant: Id, gone: set<Id>): map<Id, Score> {
    map c | c in rows && !(rows[c].tenant == tenant && rows[c].song in gone) :: rows[c]
  }

  ghost function Purge(db: Db, tenant: Id, gone: set<Id>): Db {
    db.(songs := SongsWithout(db.songs, tenant, gone),
        assets := AssetsWithout(db.assets, tenant, gone),
        manifests := ManifestsWithout(db.manifests, tenant, gone),
        sessions := SessionsWithout(db.sessions, tenant, gone),
        phrases := PhrasesWithout(db.phrases, tenant, gone),
        scores := ScoresWithout(db.scores, tenant, gone))
  }

  ghost function SongsToPurge(db: Db, tenant: Id, left: set<RequestId>): set<Id> {
    set r | r in db.requests && r !in left && r.kind == SongResource && r.tenant == tenant
        && db.requests[r].status == Waiting
            && AllCompleted(db.tasks, r) :: r.resource
  }

  ghost function SettleAll(requests: map<RequestId, Request>, tasks: map<TaskId, Task>, tenant: Id, now: Time,
                           left: set<RequestId>): map<RequestId, Request>
  {
    map r | r in requests :: if r in left then requests[r] else Settle(r, requests[r], tasks, tenant, now)
  }

  lemma NothingSettled(db: Db, tenant: Id, now: Time, left: set<RequestId>)
    requires forall r :: r in left <==> r in db.requests && r.tenant == tenant && db.requests[r].status == Waiting
    ensures SettleAll(db.requests, db.tasks, tenant, now, left) == db.requests
    ensures Purge(db, tenant, SongsToPurge(db, tenant, left)) == db
  {
    hide AllCompleted, SomeFailed;
    assert SongsToPurge(db, tenant, left) == {};
  }

  lemma SettleOne(db: Db, tenant: Id, now: Time, left: set<RequestId>, r: RequestId)
    requires r in left && r in db.requests && r.tenant == tenant && db.requests[r].status == Waiting
    ensures var settled := SettleAll(db.requests, db.tasks, tenant, now, left);
            && r in settled && settled[r] == db.requests[r]
            && SettleAll(db.requests, db.tasks, tenant, now, left - {r}) ==
               if AllCompleted(db.tasks, r) then
                 settled[r := settled[r].(status := Completed, completedAt := Some(now))]
               else if SomeFailed(db.tasks, r) then settled[r := settled[r].(status := Failed)]
               else settled
    ensures forall requests ::
              Purge(db, tenant, SongsToPurge(db, tenant, left - {r})).(requests := requests) ==
              if AllCompleted(db.tasks, r) && r.kind == SongResource
              then Purge(Purge(db, tenant, SongsToPurge(db, tenant, left)).(requests := requests), tenant, {r.resource})
              else Purge(db, tenant, SongsToPurge(db, tenant, left)).(requests := requests)
  {
    hide AllCompleted, SomeFailed;
    var before := SongsToPurge(db, tenant, left);
    assert SongsToPurge(db, tenant, left - {r}) == if AllCompleted(db.tasks, r) && r.kind == SongResource then
           before + {r.resource} else before;
    PurgeMore(db, tenant, before, r.resource);
  }

  lemma SongsMore(rows: map<Id, Song>, tenant: Id, gone: set<Id>, s: Id)
    ensures SongsWithout(SongsWithout(rows, tenant, gone), tenant, {s}) == SongsWithout(rows, tenant, gone + {s})
  {
  }

  lemma AssetsMore(rows: map<Id, Asset>, tenant: Id, gone: set<Id>, s: Id)
    ensures AssetsWithout(AssetsWithout(rows, tenant, gone), tenant, {s}) == AssetsWithout(rows, tenant, gone + {s})
  {
  }

  lemma ManifestsMore(rows: map<Id, Manifest>, tenant: Id, gone: set<Id>, s: Id)
    ensures ManifestsWithout(ManifestsWithout(rows, tenant, gone), tenant, {s}) ==
            ManifestsWithout(rows, tenant, gone + {s})
  {
  }

  lemma SessionsMore(rows: map<Id, Session>, tenant: Id, gone: set<Id>, s: Id)
    ensures SessionsWithout(SessionsWithout(rows, tenant, gone), tenant, {s}) ==
            SessionsWithout(rows, tenant, gone + {s})
  {
  }

  lemma PhrasesMore(rows: map<Id, Phrase>, tenant: Id, gone: set<Id>, s: Id)
    ensures PhrasesWithout(PhrasesWithout(rows, tenant, gone), tenant, {s}) == PhrasesWithout(rows, tenant, gone + {s})
  {
  }

  lemma ScoresMore(rows: map<Id, Score>, tenant: Id, gone: set<Id>, s: Id)
    ensures ScoresWithout(ScoresWithout(rows, tenant, gone), tenant, {s}) == ScoresWithout(rows, tenant, gone + {s})
  {
  }

  lemma PurgeMore(db: Db, tenant: Id, gone: set<Id>, s: Id)
    ensures Purge(Purge(db, tenant, gone), tenant, {s}) == Purge(db, tenant, gone + {s})
  {
    hide SongsWithout, AssetsWithout, ManifestsWithout, SessionsWithout, PhrasesWithout, ScoresWithout;
    SongsMore(db.songs, tenant, gone, s);
    AssetsMore(db.assets, tenant, gone, s);
    ManifestsMore(db.manifests, tenant, gone, s);
    SessionsMore(db.sessions, tenant, gone, s);
    PhrasesMore(db.phrases, tenant, gone, s);
    ScoresMore(db.scores, tenant, gone, s);
  }

  lemma Statuses(tasks: map<TaskId, Task>, r: RequestId, mine: set<TaskId>)
    requires forall i :: i in mine <==> i in tasks && i.request == r
    ensures AllCompleted(tasks, r) <==> mine != {} && forall i :: i in mine ==> tasks[i].status == Completed
    ensures SomeFailed(tasks, r) <==> exists i :: i in mine && tasks[i].status == Failed
  {
  }

  // Attempts, then settlement, are the whole pass.
  lemma PassIsPurge(db: Db, attempted: Db, cfg: Settings, tenant: Id, now: Time, fate: TaskId -> Fate)
    requires var due := DueTasks(db, tenant, now);
             attempted == db.(tasks := AttemptAll(db.tasks, due, fate, now, cfg.retryLimit),
                              store := db.store - RemovedKeys(db.tasks, due, fate))
    ensures ControlPlane.ProcessDeletions(db, cfg, tenant, now, fate)
            == Step(Purge(attempted, tenant, SongsToPurge(attempted, tenant,
                                                          {})).(requests := SettleAll(attempted.requests,
                                                              attempted.tasks, tenant, now, {})),
                    Counted(|WithStatus(attempted.tasks, DueTasks(db, tenant, now), Completed)|,
                            |WithStatus(attempted.tasks, DueTasks(db, tenant, now), Failed)|))
  {
    hide ControlPlane.ProcessDeletions, AttemptAll, RemovedKeys, DueTasks, WithStatus, Settle, PassKeeps, Purged,
         SongsToPurge, Purge;
    var after := ControlPlane.ProcessDeletions(db, cfg, tenant, now, fate).db;
    PassIsKeeps(db, cfg, tenant, now, fate);
    PassCounts(db, cfg, tenant, now, fate);
    PurgingIsToPurge(db, attempted, tenant);
    KeepsIsPurge(db, attempted, after, tenant, SongsToPurge(attempted, tenant, {}));
    PassSettles(db, cfg, tenant, now, fate);
  }

  lemma PassCounts(db: Db, cfg: Settings, tenant: Id, now: Time, fate: TaskId -> Fate)
    ensures var step := ControlPlane.ProcessDeletions(db, cfg, tenant, now, fate);
            var due := DueTasks(db, tenant, now);
            && step.db.tasks == AttemptAll(db.tasks, due, fate, now, cfg.retryLimit)
            && step.db.store == db.store - RemovedKeys(db.tasks, due, fate)
            && step.answer == Counted(|WithStatus(step.db.tasks, due, Completed)|,
                                      |WithStatus(step.db.tasks, due, Failed)|)
  {
    hide AttemptAll, RemovedKeys, DueTasks, WithStatus, Settle, Purged;
  }

  lemma PassSettles(db: Db, cfg: Settings, tenant: Id, now: Time, fate: TaskId -> Fate)
    ensures var after := ControlPlane.ProcessDeletions(db, cfg, tenant, now, fate).db;
            after.requests == SettleAll(db.requests, after.tasks, tenant, now, {})
  {
    hide ControlPlane.ProcessDeletions, Settle, RemovedKeys, DueTasks, Attempt, Due;
    PassMoves(db, cfg, tenant, now, fate);
  }

  lemma PurgingIsToPurge(db: Db, attempted: Db, tenant: Id)
    requires attempted.requests == db.requests
    ensures forall s :: Purging(db, attempted.tasks, tenant, s) <==> s in SongsToPurge(attempted, tenant, {})
  {
    hide AllCompleted;
    forall s | Purging(db, attempted.tasks, tenant, s)
      ensures s in SongsToPurge(attempted, tenant, {})
    {
      assert RequestId(tenant, SongResource, s) in attempted.requests;
    }
  }

  lemma KeepsSongs(db: Db, after: Db, tenant: Id, gone: set<Id>)
    requires PassKeeps(db, after, tenant) && forall s :: Purging(db, after.tasks, tenant, s) <==> s in gone
    ensures after.songs == SongsWithout(db.songs, tenant, gone)
    ensures after.assets == AssetsWithout(db.assets, tenant, gone)
  {
    hide Purging;
  }

  lemma KeepsPractice(db: Db, after: Db, tenant: Id, gone: set<Id>)
    requires PassKeeps(db, after, tenant) && forall s :: Purging(db, after.tasks, tenant, s) <==> s in gone
    ensures after.manifests == ManifestsWithout(db.manifests, tenant, gone)
    ensures after.sessions == SessionsWithout(db.sessions, tenant, gone)
  {
    hide Purging;
  }

  lemma KeepsTakes(db: Db, after: Db, tenant: Id, gone: set<Id>)
    requires PassKeeps(db, after, tenant) && forall s :: Purging(db, after.tasks, tenant, s) <==> s in gone
    ensures after.phrases == PhrasesWithout(db.phrases, tenant, gone)
    ensures after.scores == ScoresWithout(db.scores, tenant, gone)
  {
    hide Purging;
  }

  lemma KeepsIsPurge(db: Db, attempted: Db, after: Db, tenant: Id, gone: set<Id>)
    requires PassKeeps(db, after, tenant) && after.next == db.next && after.tasks == attempted.tasks
             && after.store == attempted.store
    requires attempted == db.(tasks := attempted.tasks, store := attempted.store)
    requires forall s :: Purging(db, after.tasks, tenant, s) <==> s in gone
    ensures after == Purge(attempted, tenant, gone).(requests := after.requests)
  {
    hide Purging, PassKeeps, SongsWithout, AssetsWithout, ManifestsWithout, SessionsWithout, PhrasesWithout,
         ScoresWithout;
    KeepsSongs(db, after, tenant, gone);
    KeepsPractice(db, after, tenant, gone);
    KeepsTakes(db, after, tenant, gone);
  }

  // The keys of a song's rows, but for some left to visit.
  ghost function PhraseKeysOf(rows: map<Id, Phrase>, tenant: Id, s: Id, left: set<Id>): set<Key> {
    set p | p in rows && p !in left && rows[p].tenant == tenant && rows[p].song == s && rows[p].key.Some?
      :: rows[p].key.value
  }

  ghost function AssetKeysOf(rows: map<Id, Asset>, tenant: Id, s: Id, left: set<Id>): set<Key> {
    set a | a in rows && a !in left && rows[a].tenant == tenant && rows[a].song == s && rows[a].key.Some?
      :: rows[a].key.value
  }

  // The rows of a song erased, but for some left to visit.
  ghost predicate PhrasesErasedBut(before: map<Id, Phrase>, rows: map<Id, Phrase>, tenant: Id, s: Id, now: Time,
                                   left: set<Id>)
  {
    && rows.Keys == before.Keys && left <= rows.Keys
    && forall p :: p in rows ==> rows[p] == if p in left then before[p] else PhraseAfter(before[p], tenant, s, now)
  }

  lemma NoPhrasesErased(rows: map<Id, Phrase>, tenant: Id, s: Id, now: Time, left: set<Id>)
    requires forall p :: p in left <==> p in rows && rows[p].tenant == tenant && rows[p].song == s
    ensures PhrasesErasedBut(rows, rows, tenant, s, now, left)
  {
  }

  lemma OneMorePhraseErased(before: map<Id, Phrase>, rows: map<Id, Phrase>, tenant: Id, s: Id, now: Time, left: set<Id>,
                         p: Id)
    requires PhrasesErasedBut(before, rows, tenant, s, now, left)
    requires p in left && p in before && before[p].tenant == tenant && before[p].song == s
    ensures p in rows && rows[p] == before[p]
    ensures var row := before[p].(key := None, state := Erased, deletedAt := Some(now), sha := None, idem := None);
            PhrasesErasedBut(before, rows[p := row], tenant, s, now, left - {p})
  {
  }

  lemma AllPhrasesErased(before: map<Id, Phrase>, rows: map<Id, Phrase>, tenant: Id, s: Id, now: Time)
    requires PhrasesErasedBut(before, rows, tenant, s, now, {})
    ensures rows == PhrasesAfter(before, tenant, s, now)
  {
    hide PhraseAfter;
  }

  // The rows of a song erased, but for some left to visit.
  ghost predicate AssetsErasedBut(before: map<Id, Asset>, rows: map<Id, Asset>, tenant: Id, s: Id, now: Time,
                                  left: set<Id>)
  {
    && rows.Keys == before.Keys && left <= rows.Keys
    && forall a :: a in rows ==> rows[a] == if a in left then before[a] else AssetAfter(before[a], tenant, s, now)
  }

  lemma NoAssetsErased(rows: map<Id, Asset>, tenant: Id, s: Id, now: Time, left: set<Id>)
    requires forall a :: a in left <==> a in rows && rows[a].tenant == tenant && rows[a].song == s
    ensures AssetsErasedBut(rows, rows, tenant, s, now, left)
  {
  }

  lemma OneMoreAssetErased(before: map<Id, Asset>, rows: map<Id, Asset>, tenant: Id, s: Id, now: Time, left: set<Id>,
                         a: Id)
    requires AssetsErasedBut(before, rows, tenant, s, now, left)
    requires a in left && a in before && before[a].tenant == tenant && before[a].song == s
    ensures a in rows && rows[a] == before[a]
    ensures var row := before[a].(key := None, sha := None, state := Erased, deletedAt := Some(now));
            AssetsErasedBut(before, rows[a := row], tenant, s, now, left - {a})
  {
  }

  lemma AllAssetsErased(before: map<Id, Asset>, rows: map<Id, Asset>, tenant: Id, s: Id, now: Time)
    requires AssetsErasedBut(before, rows, tenant, s, now, {})
    ensures rows == AssetsAfter(before, tenant, s, now)
  {
    hide AssetAfter;
  }

  lemma NoPhraseKeys(rows: map<Id, Phrase>, tenant: Id, s: Id, left: set<Id>)
    requires forall p :: p in rows && rows[p].tenant == tenant && rows[p].song == s ==> p in left
    ensures PhraseKeysOf(rows, tenant, s, left) == {}
  {
  }

  lemma OneMorePhraseKey(rows: map<Id, Phrase>, tenant: Id, s: Id, left: set<Id>, p: Id)
    requires p in left && p in rows && rows[p].tenant == tenant && rows[p].song == s
    ensures PhraseKeysOf(rows, tenant, s, left - {p}) ==
            PhraseKeysOf(rows, tenant, s, left) + if rows[p].key.Some? then {rows[p].key.value} else {}
  {
  }

  lemma NoAssetKeys(rows: map<Id, Asset>, tenant: Id, s: Id, left: set<Id>)
    requires forall a :: a in rows && rows[a].tenant == tenant && rows[a].song == s ==> a in left
    ensures AssetKeysOf(rows, tenant, s, left) == {}
  {
  }

  lemma OneMoreAssetKey(rows: map<Id, Asset>, tenant: Id, s: Id, left: set<Id>, a: Id)
    requires a in left && a in rows && rows[a].tenant == tenant && rows[a].song == s
    ensures AssetKeysOf(rows, tenant, s, left - {a}) ==
            AssetKeysOf(rows, tenant, s, left) + if rows[a].key.Some? then {rows[a].key.value} else {}
  {
  }

  lemma KeysAreOnRows(db: Db, db': Db, tenant: Id, s: Id)
    requires db'.songs == db.songs && db'.phrases == db.phrases && db'.assets == db.assets
    ensures SongKeys(db', tenant, s) == SongKeys(db, tenant, s)
  {
  }

  lemma NoTasksYet(db: Db, cfg: Settings, r: RequestId)
    requires Inv(db, cfg) && r !in db.requests
    ensures forall i :: i in db.tasks ==> i.request != r
  {
    hide RowsOk, UniqueOk, ObjectsOk, RequestsOk, OutcomesOk;
    assert forall i :: i in db.tasks ==> TaskOk(i, db.tasks[i], db.requests, cfg.retryLimit);
  }

  lemma LoneTask(tasks: map<TaskId, Task>, r: RequestId, now: Time)
    ensures (tasks + NewTasks(KeyTaskIds(r, {}), now))[TaskId(r, None) := Task(None, Waiting, 0, now, None)] ==
            tasks + NewTasks({TaskId(r, None)}, now)
  {
  }
}
