// What every reachable state of the control plane satisfies.  Each clause is stated
// over the tables it speaks of, so that an operation leaves alone what it does not
// touch.
module ControlPlaneInvariant {
  import opened ControlPlane
  import opened Options

  type Songs = map<Id, Song>
  type Assets = map<Id, Asset>
  type Manifests = map<Id, Manifest>
  type Sessions = map<Id, Session>
  type Phrases = map<Id, Phrase>
  type Scores = map<Id, Score>
  type Requests = map<RequestId, Request>
  type Tasks = map<TaskId, Task>
  type Store = map<Key, Blob>

  // ----- Rows and the keys they own ---------------------------------------------------

  // A live song, asset or unerased phrase owns exactly the key derived from its own
  // identity and digest; an erased one owns none and has forgotten its digest.
  ghost predicate SongOk(s: Id, row: Song, next: Id) {
    && s < next
    && (row.deletedAt.None? ==>
          && row.sha.Some? && row.length.Some? && row.media.Some? && row.state != SongDeleted
          && row.key == Some(SourceKey(row.tenant, s, row.sha.value, row.media.value)))
    && (row.deletedAt.Some? ==> row.sha.None? && row.key.None? && row.state == SongDeleted)
  }

  ghost predicate SongsOk(songs: Songs, next: Id) {
    forall s :: s in songs ==> SongOk(s, songs[s], next)
  }

  // A row of a song's: it belongs to an existing song of the same tenant, and is
  // deleted exactly when the song is.
  ghost predicate OfSong(songs: Songs, tenant: Id, s: Id, deletedAt: Option<Time>) {
    s in songs && songs[s].tenant == tenant && (deletedAt.None? <==> songs[s].deletedAt.None?)
  }

  ghost predicate AssetOk(a: Id, row: Asset, songs: Songs, next: Id) {
    && a < next && OfSong(songs, row.tenant, row.song, row.deletedAt)
    && (row.deletedAt.None? ==>
          row.sha.Some? && row.state != Erased && row.key == Some(AssetKey(row.tenant, row.song, a, row.sha.value)))
    && (row.deletedAt.Some? ==> row.sha.None? && row.key.None? && row.state == Erased)
  }

  ghost predicate AssetsOk(assets: Assets, songs: Songs, next: Id) {
    forall a :: a in assets ==> AssetOk(a, assets[a], songs, next)
  }

  ghost predicate ManifestOk(m: Id, row: Manifest, songs: Songs, next: Id) {
    && m < next && OfSong(songs, row.tenant, row.song, row.deletedAt)
    && (row.deletedAt.None? ==>
          && row.doc.Some? && row.sha == row.doc && row.calibration == row.doc.value.calibration
          && row.scoreVersion == row.doc.value.scoreVersion && row.producedAt == row.doc.value.producedAt)
    && (row.deletedAt.Some? ==> row.doc.None? && row.sha.None?)
  }

  ghost predicate ManifestsOk(manifests: Manifests, songs: Songs, next: Id) {
    forall m :: m in manifests ==> ManifestOk(m, manifests[m], songs, next)
  }

  ghost predicate SessionOk(n: Id, row: Session, manifests: Manifests, songs: Songs, next: Id) {
    && n < next && OfSong(songs, row.tenant, row.song, row.deletedAt)
    && row.manifest in manifests
    && var manifest := manifests[row.manifest];
       manifest.tenant == row.tenant && manifest.song == row.song && manifest.calibration == row.calibration
  }

  ghost predicate SessionsOk(sessions: Sessions, manifests: Manifests, songs: Songs, next: Id) {
    forall n :: n in sessions ==> SessionOk(n, sessions[n], manifests, songs, next)
  }

  ghost predicate PhraseOk(p: Id, row: Phrase, sessions: Sessions, songs: Songs) {
    && OfSong(songs, row.tenant, row.song, row.deletedAt)
    && row.session in sessions
    && (var session := sessions[row.session];
        session.tenant == row.tenant && session.song == row.song && session.calibration == row.calibration)
    && (row.deletedAt.None? ==> row.sha.Some? && row.idem.Some?)
    && (row.deletedAt.Some? ==> row.sha.None? && row.idem.None? && row.state == Erased)
    && (if row.state == Erased then row.key.None?
        else row.key.Some? && row.sha.Some? && row.key.value == PhraseKey(row.tenant, p, row.sha.value, row.codec))
  }

  ghost predicate PhrasesOk(phrases: Phrases, sessions: Sessions, songs: Songs) {
    forall p :: p in phrases ==> PhraseOk(p, phrases[p], sessions, songs)
  }

  // A live score is bound to the session, phrase and accepted manifest it was written
  // for, all of one calibration, and its payload is its digest's.
  ghost predicate ScoreBound(row: Score, phrase: Phrase, session: Session, manifest: Manifest) {
    && row.doc.Some? && row.sha == row.doc && row.idem.Some?
    && var doc := row.doc.value;
    && doc.tenant == row.tenant && doc.song == row.song && doc.session == row.session && doc.phrase == row.phrase
    && doc.calibration == row.calibration && doc.scoreVersion == row.scoreVersion
    && doc.modelRelease == row.modelRelease && doc.producedAt == row.producedAt
    && session.manifest == row.manifest
    && session.calibration == phrase.calibration == manifest.calibration == row.calibration
    && manifest.doc.Some? && manifest.doc.value.gate == GateAccepted && manifest.doc.value.reference == doc.reference
    && manifest.scoreVersion == row.scoreVersion && manifest.producedAt <= row.producedAt
  }

  ghost predicate ScoreOk(c: Id, row: Score, phrases: Phrases, sessions: Sessions, manifests: Manifests,
                          songs: Songs, next: Id)
  {
    && c < next && OfSong(songs, row.tenant, row.song, row.deletedAt)
    && row.manifest in manifests && row.session in sessions && row.phrase in phrases
    && var phrase, session, manifest := phrases[row.phrase], sessions[row.session], manifests[row.manifest];
    && manifest.tenant == row.tenant && manifest.song == row.song
    && session.tenant == row.tenant && session.song == row.song
    && phrase.tenant == row.tenant && phrase.session == row.session && phrase.song == row.song
    && (row.deletedAt.None? ==> ScoreBound(row, phrase, session, manifest))
    && (row.deletedAt.Some? ==> row.doc.None? && row.sha.None? && row.idem.None?)
  }

  ghost predicate ScoresOk(scores: Scores, phrases: Phrases, sessions: Sessions, manifests: Manifests, songs: Songs,
                           next: Id)
  {
    forall c :: c in scores ==> ScoreOk(c, scores[c], phrases, sessions, manifests, songs, next)
  }

  // A live asset registered for the score under this digest, its object in the store.
  ghost predicate Backed(assets: Assets, store: Store, tenant: Id, doc: ScoreDoc, kind: AssetKind,
                         digest: Option<Blob>)
  {
    digest.Some? &&
    exists a :: a in assets && EvidenceMatches(assets[a], tenant, doc, kind, digest.value)
                && assets[a].state == Stored && assets[a].key.Some? && assets[a].key.value in store
  }

  ghost predicate EvidenceOk(scores: Scores, assets: Assets, store: Store) {
    forall c :: c in scores && scores[c].deletedAt.None? && scores[c].doc.Some? ==>
      var row := scores[c];
      && Backed(assets, store, row.tenant, row.doc.value, Transport, row.doc.value.transport)
      && Backed(assets, store, row.tenant, row.doc.value, UserFeatures, row.doc.value.userFeatures)
  }

  // ----- The database's uniqueness constraints ------------------------------------------

  ghost predicate SongsUnique(songs: Songs) {
    forall s, t ::
      s in songs && t in songs && songs[s].sha.Some? && SameSource(songs[t], songs[s].tenant, songs[s].sha.value)
      ==> s == t
  }

  ghost predicate ManifestsUnique(manifests: Manifests) {
    forall m, n :: m in manifests && n in manifests && manifests[m].sha.Some?
                   && SameManifest(manifests[n], manifests[m].tenant, manifests[m].song, manifests[m].sha.value)
      ==> m == n
  }

  ghost predicate SameSlot(p: Phrase, q: Phrase) {
    p.tenant == q.tenant && p.session == q.session && p.sequence == q.sequence
  }

  ghost predicate PhrasesUnique(phrases: Phrases) {
    && (forall p, q :: p in phrases && q in phrases && phrases[p].idem.Some?
                       && SamePhraseKey(phrases[q], phrases[p].tenant, phrases[p].idem.value)
          ==> p == q)
    && (forall p, q :: p in phrases && q in phrases && SameSlot(phrases[p], phrases[q]) ==> p == q)
  }

  ghost predicate ScoresUnique(scores: Scores) {
    forall c, d :: c in scores && d in scores && scores[c].idem.Some?
                   && SameScoreKey(scores[d], scores[c].tenant, scores[c].idem.value)
      ==> c == d
  }

  // ----- Deletion requests and tasks ------------------------------------------------------

  // A song's deletion request is completed exactly when the song's row is gone, and
  // every deleted song has one.
  ghost predicate RequestOk(r: RequestId, row: Request, songs: Songs, next: Id) {
    r.kind == SongResource ==>
      && r.resource < next
      && (row.status == Completed ==> r.resource !in songs)
      && (row.status != Completed ==>
            r.resource in songs && songs[r.resource].tenant == r.tenant && songs[r.resource].deletedAt.Some?)
  }

  ghost predicate RequestsOk(requests: Requests, songs: Songs, next: Id) {
    && (forall r :: r in requests ==> RequestOk(r, requests[r], songs, next))
    && (forall s :: s in songs && songs[s].deletedAt.Some? ==> RequestId(songs[s].tenant, SongResource, s) in requests)
  }

  // Which key a request's task may have been created for.
  ghost predicate TaskKeyOk(i: TaskId, requests: Requests, phrases: Phrases, next: Id) {
    match i.request.kind
    case PhraseAudio =>
      i.key.Some? && i.key.value.PhraseKey? && i.key.value.tenant == i.request.tenant
          && i.key.value.phrase == i.request.resource
    case SongResource =>
      i.key.Some? ==>
        match i.key.value
        case SourceKey(t, s, _, _) => t == i.request.tenant && s == i.request.resource
        case AssetKey(t, s, a, _) => t == i.request.tenant && s == i.request.resource && a < next
        case PhraseKey(t, p, _, _) =>
          && t == i.request.tenant
          && (i.request in requests && requests[i.request].status != Completed ==>
                p in phrases && phrases[p].tenant == t && phrases[p].song == i.request.resource)
  }

  ghost predicate TaskOk(i: TaskId, row: Task, requests: Requests, limit: nat) {
    && i.request in requests
    && (if row.status == Completed then row.key.None? else row.key == i.key)
    && (row.status == Waiting ==> row.attempts < limit)
    && (requests[i.request].status == Completed ==> row.status == Completed)
  }

  ghost predicate TasksOk(tasks: Tasks, requests: Requests, phrases: Phrases, next: Id, limit: nat) {
    forall i :: i in tasks ==> TaskOk(i, tasks[i], requests, limit) && TaskKeyOk(i, requests, phrases, next)
  }

  ghost predicate HasTask(tasks: Tasks, r: RequestId) {
    exists i :: i in tasks && i.request == r
  }

  ghost predicate OutcomesOk(tasks: Tasks, requests: Requests) {
    && (forall r :: r in requests && requests[r].status == Failed ==> SomeFailed(tasks, r))
    && (forall r :: r in requests && (r.kind == SongResource || requests[r].status == Waiting) ==> HasTask(tasks, r))
  }

  // ----- The object store --------------------------------------------------------------------

  ghost predicate OpenTask(tasks: Tasks, r: RequestId, k: Key) {
    TaskId(r, Some(k)) in tasks && tasks[TaskId(r, Some(k))].status != Completed
  }

  // Some row or unfinished deletion task answers for the key.
  ghost predicate Held(k: Key, songs: Songs, assets: Assets, phrases: Phrases, tasks: Tasks) {
    match k
    case SourceKey(t, s, _, _) =>
      || (s in songs && songs[s].key == Some(k))
      || OpenTask(tasks, RequestId(t, SongResource, s), k)
    case AssetKey(t, s, a, _) =>
      || (a in assets && assets[a].key == Some(k))
      || OpenTask(tasks, RequestId(t, SongResource, s), k)
    case PhraseKey(t, p, _, _) =>
      || (p in phrases && phrases[p].key == Some(k))
      || (p in phrases && phrases[p].tenant == t && OpenTask(tasks, RequestId(t, SongResource, phrases[p].song), k))
      || OpenTask(tasks, RequestId(t, PhraseAudio, p), k)
  }

  // No object is ever forgotten, and every object is what its key's digest says.
  ghost predicate StoreOk(store: Store, songs: Songs, assets: Assets, phrases: Phrases, tasks: Tasks) {
    forall k :: k in store ==> store[k] == k.sha && Held(k, songs, assets, phrases, tasks)
  }

  // What a live song or asset says is stored is stored.
  ghost predicate StoredOk(store: Store, songs: Songs, assets: Assets) {
    && (forall s :: s in songs && songs[s].key.Some? && songs[s].state != PendingUpload ==> songs[s].key.value in store)
    && (forall a :: a in assets && assets[a].key.Some? && assets[a].state == Stored ==> assets[a].key.value in store)
  }

  // ----- The whole invariant -------------------------------------------------------------------

  ghost predicate RowsOk(db: Db) {
    && SongsOk(db.songs, db.next)
    && AssetsOk(db.assets, db.songs, db.next)
    && ManifestsOk(db.manifests, db.songs, db.next)
    && SessionsOk(db.sessions, db.manifests, db.songs, db.next)
    && PhrasesOk(db.phrases, db.sessions, db.songs)
    && ScoresOk(db.scores, db.phrases, db.sessions, db.manifests, db.songs, db.next)
    && EvidenceOk(db.scores, db.assets, db.store)
  }

  ghost predicate UniqueOk(db: Db) {
    SongsUnique(db.songs) && ManifestsUnique(db.manifests) && PhrasesUnique(db.phrases) && ScoresUnique(db.scores)
  }

  ghost predicate DeletionsOk(db: Db, cfg: Settings) {
    && RequestsOk(db.requests, db.songs, db.next)
    && TasksOk(db.tasks, db.requests, db.phrases, db.next, cfg.retryLimit)
    && OutcomesOk(db.tasks, db.requests)
  }

  ghost predicate ObjectsOk(db: Db) {
    StoreOk(db.store, db.songs, db.assets, db.phrases, db.tasks) && StoredOk(db.store, db.songs, db.assets)
  }

  ghost predicate Inv(db: Db, cfg: Settings) {
    RowsOk(db) && UniqueOk(db) && DeletionsOk(db, cfg) && ObjectsOk(db)
  }

  lemma EmptyInv(cfg: Settings)
    ensures Inv(EMPTY, cfg)
  {
  }

  // ----- Changes that leave other tables' clauses alone --------------------------------------------

  // Rows may be added, and existing rows keep their owner, key and liveness.
  ghost predicate SongsKept(songs: Songs, songs': Songs) {
    forall s :: s in songs ==>
      s in songs' && songs'[s].tenant == songs[s].tenant && songs'[s].deletedAt == songs[s].deletedAt
          && songs'[s].key == songs[s].key
  }

  lemma SongsKeptOthers(db: Db, songs': Songs, next': Id)
    requires RowsOk(db) && SongsKept(db.songs, songs') && db.next <= next'
    ensures AssetsOk(db.assets, songs', next')
    ensures ManifestsOk(db.manifests, songs', next')
    ensures SessionsOk(db.sessions, db.manifests, songs', next')
    ensures PhrasesOk(db.phrases, db.sessions, songs')
    ensures ScoresOk(db.scores, db.phrases, db.sessions, db.manifests, songs', next')
  {
  }

  lemma NextGrows(db: Db, cfg: Settings, next': Id)
    requires Inv(db, cfg) && db.next <= next'
    ensures Inv(db.(next := next'), cfg)
  {
    SongsKeptOthers(db, db.songs, next');
    NextKeepsDeletions(db, cfg, next');
    hide AssetsOk, ManifestsOk, SessionsOk, PhrasesOk, ScoresOk, EvidenceOk, RequestsOk, TasksOk, OutcomesOk,
         StoreOk, StoredOk;
    hide SongsUnique, ManifestsUnique, PhrasesUnique, ScoresUnique;
  }

  // ----- Putting an object that some row answers for ------------------------------------------------

  lemma PutInv(db: Db, cfg: Settings, k: Key, payload: Blob)
    requires Inv(db, cfg)
    requires Held(k, db.songs, db.assets, db.phrases, db.tasks) && payload == k.sha
    ensures !PutRefused(db.store, k, payload)
    ensures Inv(db.(store := db.store[k := payload]), cfg)
  {
    PutKeepsEvidence(db.scores, db.assets, db.store, db.store[k := payload]);
    PutKeepsObjects(db.store, db.songs, db.assets, db.phrases, db.tasks, k, payload);
  }

  lemma PutKeepsObjects(store: Store, songs: Songs, assets: Assets, phrases: Phrases, tasks: Tasks, k: Key,
                        payload: Blob)
    requires StoreOk(store, songs, assets, phrases, tasks) && StoredOk(store, songs, assets)
    requires Held(k, songs, assets, phrases, tasks) && payload == k.sha
    ensures StoreOk(store[k := payload], songs, assets, phrases, tasks) && StoredOk(store[k := payload], songs, assets)
  {
  }

  lemma PutKeepsEvidence(scores: Scores, assets: Assets, store: Store, store': Store)
    requires EvidenceOk(scores, assets, store) && store.Keys <= store'.Keys
    ensures EvidenceOk(scores, assets, store')
  {
  }

  // ----- Changing songs without deleting any ----------------------------------------------------------

  ghost predicate NewSongsLive(songs: Songs, songs': Songs, next: Id) {
    forall s :: s in songs' && s !in songs ==> next <= s && songs'[s].deletedAt.None?
  }

  lemma SongsChangeDeletions(db: Db, cfg: Settings, songs': Songs, next': Id)
    requires DeletionsOk(db, cfg) && SongsKept(db.songs, songs') && NewSongsLive(db.songs, songs', db.next)
             && db.next <= next'
    ensures DeletionsOk(db.(songs := songs', next := next'), cfg)
  {
  }

  lemma SongsChangeInv(db: Db, cfg: Settings, songs': Songs, next': Id)
    requires Inv(db, cfg) && SongsKept(db.songs, songs') && NewSongsLive(db.songs, songs', db.next) && db.next <= next'
    requires SongsOk(songs', next') && SongsUnique(songs') && StoredOk(db.store, songs', db.assets)
    ensures Inv(db.(songs := songs', next := next'), cfg)
  {
    SongsKeptOthers(db, songs', next');
    SongsChangeDeletions(db, cfg, songs', next');
  }

  // ----- Changing assets without deleting any ------------------------------------------------------------

  // Rows keep everything but their upload, which is never undone.
  ghost predicate AssetsKept(assets: Assets, assets': Assets) {
    forall a :: a in assets ==>
      a in assets' && assets'[a].(state := assets[a].state, uploadedAt := assets[a].uploadedAt) == assets[a]
      && (assets[a].state == Stored ==> assets'[a].state == Stored)
  }

  lemma AssetsChangeInv(db: Db, cfg: Settings, assets': Assets, next': Id)
    requires Inv(db, cfg) && AssetsKept(db.assets, assets') && db.next <= next'
    requires AssetsOk(assets', db.songs, next') && StoredOk(db.store, db.songs, assets')
    ensures Inv(db.(assets := assets', next := next'), cfg)
  {
    SongsKeptOthers(db, db.songs, next');
    AssetsKeepEvidence(db.scores, db.assets, assets', db.store);
    AssetsKeepHeld(db.store, db.songs, db.assets, assets', db.phrases, db.tasks);
    NextKeepsDeletions(db, cfg, next');
  }

  lemma NextKeepsDeletions(db: Db, cfg: Settings, next': Id)
    requires DeletionsOk(db, cfg) && db.next <= next'
    ensures DeletionsOk(db.(next := next'), cfg)
  {
  }

  lemma AssetsKeepHeld(store: Store, songs: Songs, assets: Assets, assets': Assets, phrases: Phrases, tasks: Tasks)
    requires StoreOk(store, songs, assets, phrases, tasks) && AssetsKept(assets, assets')
    ensures StoreOk(store, songs, assets', phrases, tasks)
  {
  }

  lemma MarkAssetInv(db: Db, cfg: Settings, a: Id, now: Time)
    requires Inv(db, cfg) && a in db.assets && db.assets[a].state != Erased && db.assets[a].key.Some?
    requires db.assets[a].key.value in db.store
    ensures Inv(db.(assets := db.assets[a := db.assets[a].(state := Stored, uploadedAt := Some(now))]), cfg)
  {
    MarkAssetRows(db, a, now);
    AssetsChangeInv(db, cfg, db.assets[a := db.assets[a].(state := Stored, uploadedAt := Some(now))], db.next);
  }

  lemma MarkAssetRows(db: Db, a: Id, now: Time)
    requires AssetsOk(db.assets, db.songs, db.next) && StoredOk(db.store, db.songs, db.assets)
    requires a in db.assets && db.assets[a].state != Erased && db.assets[a].key.Some?
             && db.assets[a].key.value in db.store
    ensures var assets' := db.assets[a := db.assets[a].(state := Stored, uploadedAt := Some(now))];
            AssetsOk(assets', db.songs, db.next) && StoredOk(db.store, db.songs, assets')
                && AssetsKept(db.assets, assets')
  {
  }

  lemma AssetsKeepEvidence(scores: Scores, assets: Assets, assets': Assets, store: Store)
    requires EvidenceOk(scores, assets, store) && AssetsKept(assets, assets')
    ensures EvidenceOk(scores, assets', store)
  {
    forall tenant, doc, kind, digest | Backed(assets, store, tenant, doc, kind, digest)
      ensures Backed(assets', store, tenant, doc, kind, digest)
    {
      var a :| a in assets && EvidenceMatches(assets[a], tenant, doc, kind, digest.value)
               && assets[a].state == Stored && assets[a].key.Some? && assets[a].key.value in store;
      assert EvidenceMatches(assets'[a], tenant, doc, kind, digest.value);
    }
  }

  // ----- Inserting manifests, sessions and scores -----------------------------------------------------------

  lemma AddManifestInv(db: Db, cfg: Settings, row: Manifest)
    requires Inv(db, cfg)
    requires ManifestOk(db.next, row, db.songs, db.next + 1) && row.doc.Some?
    requires forall m :: m in db.manifests ==> !SameManifest(db.manifests[m], row.tenant, row.song, row.doc.value)
    ensures Inv(db.(manifests := db.manifests[db.next := row], next := db.next + 1), cfg)
  {
    assert db.next !in db.manifests by {
      assert forall m :: m in db.manifests ==> ManifestOk(m, db.manifests[m], db.songs, db.next);
    }
    NextGrows(db, cfg, db.next + 1);
    AddManifestRows(db.(next := db.next + 1), db.next, row);
  }

  lemma AddManifestRows(db: Db, m: Id, row: Manifest)
    requires RowsOk(db) && m !in db.manifests && ManifestOk(m, row, db.songs, db.next)
    ensures RowsOk(db.(manifests := db.manifests[m := row]))
  {
  }

  lemma AddSessionInv(db: Db, cfg: Settings, row: Session)
    requires Inv(db, cfg)
    requires SessionOk(db.next, row, db.manifests, db.songs, db.next + 1)
    ensures Inv(db.(sessions := db.sessions[db.next := row], next := db.next + 1), cfg)
  {
    assert db.next !in db.sessions by {
      assert forall n :: n in db.sessions ==> SessionOk(n, db.sessions[n], db.manifests, db.songs, db.next);
    }
    NextGrows(db, cfg, db.next + 1);
    AddSessionRows(db.(next := db.next + 1), db.next, row);
  }

  lemma AddSessionRows(db: Db, n: Id, row: Session)
    requires RowsOk(db) && n !in db.sessions && SessionOk(n, row, db.manifests, db.songs, db.next)
    ensures RowsOk(db.(sessions := db.sessions[n := row]))
  {
  }

  lemma AddScoreInv(db: Db, cfg: Settings, row: Score)
    requires Inv(db, cfg)
    requires ScoreOk(db.next, row, db.phrases, db.sessions, db.manifests, db.songs, db.next + 1)
    requires row.deletedAt.None? && row.doc.Some? && row.idem.Some?
    requires Backed(db.assets, db.store, row.tenant, row.doc.value, Transport, row.doc.value.transport)
    requires Backed(db.assets, db.store, row.tenant, row.doc.value, UserFeatures, row.doc.value.userFeatures)
    requires forall c :: c in db.scores ==> !SameScoreKey(db.scores[c], row.tenant, row.idem.value)
    ensures Inv(db.(scores := db.scores[db.next := row], next := db.next + 1), cfg)
  {
    hide ScoreOk, Backed, SongsOk, AssetsOk, ManifestsOk, SessionsOk, PhrasesOk, ScoresOk, EvidenceOk;
    hide SongsUnique, ManifestsUnique, PhrasesUnique, ScoresUnique, RequestsOk, TasksOk, OutcomesOk, StoreOk, StoredOk;
    SongBelowNext(db);
    var grown := db.(next := db.next + 1);
    NextGrows(db, cfg, db.next + 1);
    var added := grown.(scores := db.scores[db.next := row]);
    AddScoreRows(grown, db.next, row);
    AddScoreUnique(db.scores, db.next, row);
    assert added == db.(scores := db.scores[db.next := row], next := db.next + 1);
    assert Inv(added, cfg);
  }

  lemma AddScoreRows(db: Db, c: Id, row: Score)
    requires RowsOk(db) && c !in db.scores
    requires ScoreOk(c, row, db.phrases, db.sessions, db.manifests, db.songs, db.next)
    requires row.doc.Some?
    requires Backed(db.assets, db.store, row.tenant, row.doc.value, Transport, row.doc.value.transport)
    requires Backed(db.assets, db.store, row.tenant, row.doc.value, UserFeatures, row.doc.value.userFeatures)
    ensures RowsOk(db.(scores := db.scores[c := row]))
  {
    hide SongsOk, AssetsOk, ManifestsOk, SessionsOk, PhrasesOk, ScoreOk, Backed;
  }

  lemma AddScoreUnique(scores: Scores, c: Id, row: Score)
    requires ScoresUnique(scores) && c !in scores && row.idem.Some?
    requires forall d :: d in scores ==> !SameScoreKey(scores[d], row.tenant, row.idem.value)
    ensures ScoresUnique(scores[c := row])
  {
  }

  // ----- Changing phrases without deleting any ---------------------------------------------------------------

  ghost predicate PhrasesKept(phrases: Phrases, phrases': Phrases) {
    forall p :: p in phrases ==>
      p in phrases' && phrases'[p].(state := phrases[p].state, uploadedAt := phrases[p].uploadedAt) == phrases[p]
      && (phrases[p].state == Erased <==> phrases'[p].state == Erased)
  }

  lemma PhrasesChangeInv(db: Db, cfg: Settings, phrases': Phrases)
    requires Inv(db, cfg) && PhrasesKept(db.phrases, phrases')
    requires PhrasesOk(phrases', db.sessions, db.songs) && PhrasesUnique(phrases')
    ensures Inv(db.(phrases := phrases'), cfg)
  {
    PhrasesKeepScores(db, phrases');
    PhrasesKeepTasks(db, cfg, phrases');
    PhrasesKeepHeld(db, phrases');
  }

  lemma AddPhraseInv(db: Db, cfg: Settings, p: Id, row: Phrase)
    requires Inv(db, cfg) && p !in db.phrases
    requires PhraseOk(p, row, db.sessions, db.songs) && row.idem.Some?
    requires forall q :: q in db.phrases ==>
               !SamePhraseKey(db.phrases[q], row.tenant, row.idem.value) && !SameSlot(db.phrases[q], row)
    ensures Inv(db.(phrases := db.phrases[p := row]), cfg)
  {
    AddPhraseUnique(db.phrases, p, row);
    AddPhraseRows(db.phrases, db.sessions, db.songs, p, row);
    PhrasesChangeInv(db, cfg, db.phrases[p := row]);
  }

  lemma AddPhraseRows(phrases: Phrases, sessions: Sessions, songs: Songs, p: Id, row: Phrase)
    requires PhrasesOk(phrases, sessions, songs) && p !in phrases && PhraseOk(p, row, sessions, songs)
    ensures PhrasesOk(phrases[p := row], sessions, songs) && PhrasesKept(phrases, phrases[p := row])
  {
  }

  lemma AddPhraseUnique(phrases: Phrases, p: Id, row: Phrase)
    requires PhrasesUnique(phrases) && p !in phrases && row.idem.Some?
    requires forall q :: q in phrases ==>
               !SamePhraseKey(phrases[q], row.tenant, row.idem.value) && !SameSlot(phrases[q], row)
    ensures PhrasesUnique(phrases[p := row])
  {
  }

  // An uploaded phrase keeps its key and slot.
  lemma MarkPhraseInv(db: Db, cfg: Settings, p: Id, now: Time)
    requires Inv(db, cfg) && p in db.phrases && db.phrases[p].state != Erased
    ensures Inv(db.(phrases := db.phrases[p := db.phrases[p].(state := Stored, uploadedAt := Some(now))]), cfg)
  {
    MarkPhraseRows(db.phrases, db.sessions, db.songs, p, now);
    PhrasesChangeInv(db, cfg, db.phrases[p := db.phrases[p].(state := Stored, uploadedAt := Some(now))]);
  }

  lemma MarkPhraseRows(phrases: Phrases, sessions: Sessions, songs: Songs, p: Id, now: Time)
    requires PhrasesOk(phrases, sessions, songs) && PhrasesUnique(phrases) && p in phrases && phrases[p].state != Erased
    ensures var phrases' := phrases[p := phrases[p].(state := Stored, uploadedAt := Some(now))];
            PhrasesOk(phrases', sessions, songs) && PhrasesUnique(phrases') && PhrasesKept(phrases, phrases')
  {
  }

  lemma PhrasesKeepScores(db: Db, phrases': Phrases)
    requires ScoresOk(db.scores, db.phrases, db.sessions, db.manifests, db.songs, db.next)
             && PhrasesKept(db.phrases, phrases')
    ensures ScoresOk(db.scores, phrases', db.sessions, db.manifests, db.songs, db.next)
  {
    forall c | c in db.scores
      ensures ScoreOk(c, db.scores[c], phrases', db.sessions, db.manifests, db.songs, db.next)
    {
      assert ScoreOk(c, db.scores[c], db.phrases, db.sessions, db.manifests, db.songs, db.next);
    }
  }

  lemma PhrasesKeepTasks(db: Db, cfg: Settings, phrases': Phrases)
    requires TasksOk(db.tasks, db.requests, db.phrases, db.next, cfg.retryLimit) && PhrasesKept(db.phrases, phrases')
    ensures TasksOk(db.tasks, db.requests, phrases', db.next, cfg.retryLimit)
  {
  }

  lemma PhrasesKeepHeld(db: Db, phrases': Phrases)
    requires StoreOk(db.store, db.songs, db.assets, db.phrases, db.tasks) && PhrasesKept(db.phrases, phrases')
    ensures StoreOk(db.store, db.songs, db.assets, phrases', db.tasks)
  {
  }

  // ----- The operations -----------------------------------------------------------------------------------------

  lemma SongBelowNext(db: Db)
    requires RowsOk(db)
    ensures db.next !in db.songs && db.next !in db.assets && db.next !in db.scores
  {
    assert forall s :: s in db.songs ==> SongOk(s, db.songs[s], db.next);
    assert forall a :: a in db.assets ==> AssetOk(a, db.assets[a], db.songs, db.next);
    assert forall c :: c in db.scores ==>
           ScoreOk(c, db.scores[c], db.phrases, db.sessions, db.manifests, db.songs, db.next);
  }

  // What an insertion changes, if anything.
  lemma CreateSongResult(db: Db, tenant: Id, sha: Blob, length: int, media: Media)
    ensures var step := CreateSong(db, tenant, sha, length, media);
            if step.answer.Created? then
              && step.db == db.(songs := db.songs[db.next := NewSong(tenant, db.next, sha, length, media)],
                                next := db.next + 1)
              && forall s :: s in db.songs ==> !SameSource(db.songs[s], tenant, sha)
            else
              step.db == db
  {
    hide SameSource, ExistsLiveSource, NewSong;
  }

  lemma ReserveAssetResult(db: Db, tenant: Id, s: Id, kind: AssetKind, sha: Blob, length: int, mediaType: nat,
                           release: Option<Version>)
    ensures var step := ReserveAsset(db, tenant, s, kind, sha, length, mediaType, release);
            if step.answer.Created? then
              && LiveSong(db, tenant, s)
              && step.db == db.(assets := db.assets[db.next := NewAsset(tenant, s, db.next, kind, sha, length,
                 mediaType, release)], next := db.next + 1)
            else
              step.db == db
  {
    hide SameAsset, NewAsset;
  }

  lemma WriteScoreResult(db: Db, tenant: Id, doc: ScoreDoc, idem: string, m: Id, now: Time)
    ensures var step := WriteScore(db, tenant, doc, idem, m, now);
            || step.db == db
            || (doc.tenant == tenant && LiveSong(db, tenant, doc.song)
                && step.db == db.(scores := db.scores[db.next := NewScore(doc, m, idem)], next := db.next + 1))
  {
    hide SameScoreKey, RequireEvidence, NewScore, LiveSession, LivePhrase, LiveManifest;
  }

  lemma PublishManifestResult(db: Db, tenant: Id, s: Id, doc: ManifestDoc, now: Time)
    ensures var step := PublishManifest(db, tenant, s, doc, now);
            if step.answer.Created? then
              && LiveSong(db, tenant, s)
              && step.db == db.(manifests := db.manifests[db.next := NewManifest(tenant, s, doc)], next := db.next + 1,
                                songs := db.songs[s := db.songs[s].(manifestSha := Some(doc),
                                                                    state := StateFor(doc.gate))])
            else
              step.db == db
  {
    hide ManifestFits, SameManifest, NewManifest, StateFor;
  }

  lemma CreateSongInv(db: Db, cfg: Settings, tenant: Id, sha: Blob, length: int, media: Media)
    requires Inv(db, cfg)
    ensures Inv(CreateSong(db, tenant, sha, length, media).db, cfg)
  {
    hide Inv, CreateSong;
    CreateSongResult(db, tenant, sha, length, media);
    if CreateSong(db, tenant, sha, length, media).answer.Created? {
      NewSongInv(db, cfg, tenant, sha, length, media);
    }
  }

  lemma NewSongInv(db: Db, cfg: Settings, tenant: Id, sha: Blob, length: int, media: Media)
    requires Inv(db, cfg) && forall s :: s in db.songs ==> !SameSource(db.songs[s], tenant, sha)
    ensures Inv(db.(songs := db.songs[db.next := NewSong(tenant, db.next, sha, length, media)], next := db.next + 1),
                cfg)
  {
    hide EvidenceOk, ScoresOk, PhrasesOk, SessionsOk, ManifestsOk, AssetsOk, DeletionsOk, StoreOk;
    SongBelowNext(db);
    SongsChangeInv(db, cfg, db.songs[db.next := NewSong(tenant, db.next, sha, length, media)], db.next + 1);
  }

  lemma ReserveAssetInv(db: Db, cfg: Settings, tenant: Id, s: Id, kind: AssetKind, sha: Blob, length: int,
                        mediaType: nat, release: Option<Version>)
    requires Inv(db, cfg)
    ensures Inv(ReserveAsset(db, tenant, s, kind, sha, length, mediaType, release).db, cfg)
  {
    hide Inv, ReserveAsset;
    ReserveAssetResult(db, tenant, s, kind, sha, length, mediaType, release);
    if ReserveAsset(db, tenant, s, kind, sha, length, mediaType, release).answer.Created? {
      NewAssetInv(db, cfg, s, NewAsset(tenant, s, db.next, kind, sha, length, mediaType, release));
    }
  }

  lemma NewAssetInv(db: Db, cfg: Settings, s: Id, row: Asset)
    requires Inv(db, cfg) && LiveSong(db, row.tenant, s) && row.sha.Some?
    requires row == NewAsset(row.tenant, s, db.next, row.kind, row.sha.value, row.length, row.mediaType, row.release)
    ensures Inv(db.(assets := db.assets[db.next := row], next := db.next + 1), cfg)
  {
    hide UniqueOk, EvidenceOk, ScoresOk, PhrasesOk, SessionsOk, ManifestsOk, DeletionsOk, StoreOk;
    SongBelowNext(db);
    AssetsChangeInv(db, cfg, db.assets[db.next := row], db.next + 1);
  }

  lemma AssetHeld(db: Db, cfg: Settings, a: Id)
    requires Inv(db, cfg) && a in db.assets && db.assets[a].deletedAt.None?
    ensures db.assets[a].key.Some? && db.assets[a].sha.Some? && db.assets[a].state != Erased
    ensures Held(db.assets[a].key.value, db.songs, db.assets, db.phrases, db.tasks)
    ensures db.assets[a].key.value.sha == db.assets[a].sha.value
  {
    assert AssetOk(a, db.assets[a], db.songs, db.next);
  }

  lemma UploadAssetInv(db: Db, cfg: Settings, tenant: Id, a: Id, payload: Blob, now: Time, commits: bool)
    requires Inv(db, cfg)
    ensures Inv(UploadAsset(db, cfg, tenant, a, payload, now, commits).db, cfg)
    ensures !UploadAsset(db, cfg, tenant, a, payload, now, commits).answer.StoreRefused?
  {
    hide Inv, Held;
    var step := UploadAsset(db, cfg, tenant, a, payload, now, commits);
    if step.db != db || step.answer.StoreRefused? || step.answer.RolledBack? {
      AssetHeld(db, cfg, a);
      PutInv(db, cfg, db.assets[a].key.value, payload);
      var put := db.(store := db.store[db.assets[a].key.value := payload]);
      if commits {
        MarkAssetInv(put, cfg, a, now);
      }
    }
  }

  // A republished song keeps its owner and key.
  lemma MarkSongInv(db: Db, cfg: Settings, s: Id, row: Song)
    requires Inv(db, cfg) && s in db.songs && db.songs[s].deletedAt.None?
    requires row.(state := db.songs[s].state, uploadedAt := db.songs[s].uploadedAt,
                  manifestSha := db.songs[s].manifestSha) == db.songs[s]
    requires row.state != SongDeleted && row.key.Some? && row.key.value in db.store
    ensures Inv(db.(songs := db.songs[s := row]), cfg)
  {
    hide EvidenceOk, ScoresOk, PhrasesOk, SessionsOk, ManifestsOk, DeletionsOk, StoreOk;
    assert SongOk(s, db.songs[s], db.next);
    SongsChangeInv(db, cfg, db.songs[s := row], db.next);
  }

  lemma UploadedSongStored(db: Db, cfg: Settings, s: Id)
    requires Inv(db, cfg) && s in db.songs && db.songs[s].deletedAt.None? && db.songs[s].state != PendingUpload
    ensures db.songs[s].key.Some? && db.songs[s].key.value in db.store
    ensures db.songs[s].state != SongDeleted
  {
    assert SongOk(s, db.songs[s], db.next);
  }

  lemma NewManifestFits(db: Db, cfg: Settings, tenant: Id, s: Id, doc: ManifestDoc, now: Time)
    requires Inv(db, cfg) && LiveSong(db, tenant, s)
    ensures ManifestOk(db.next, NewManifest(tenant, s, doc), db.songs, db.next + 1)
  {
  }

  lemma PublishManifestInv(db: Db, cfg: Settings, tenant: Id, s: Id, doc: ManifestDoc, now: Time)
    requires Inv(db, cfg)
    ensures Inv(PublishManifest(db, tenant, s, doc, now).db, cfg)
  {
    hide Inv, ManifestOk, ManifestFits;
    var step := PublishManifest(db, tenant, s, doc, now);
    if step.answer.Created? {
      NewManifestFits(db, cfg, tenant, s, doc, now);
      AddManifestInv(db, cfg, NewManifest(tenant, s, doc));
      var added := db.(manifests := step.db.manifests, next := step.db.next);
      UploadedSongStored(db, cfg, s);
      MarkSongInv(added, cfg, s, step.db.songs[s]);
    }
  }

  lemma SourceHeld(db: Db, cfg: Settings, s: Id)
    requires Inv(db, cfg) && s in db.songs && db.songs[s].deletedAt.None?
    ensures db.songs[s].key.Some? && db.songs[s].sha.Some?
    ensures Held(db.songs[s].key.value, db.songs, db.assets, db.phrases, db.tasks)
    ensures db.songs[s].key.value.sha == db.songs[s].sha.value
  {
    assert SongOk(s, db.songs[s], db.next);
  }

  lemma UploadSourceInv(db: Db, cfg: Settings, tenant: Id, s: Id, payload: Blob, screening: Screening, now: Time,
                        commits: bool)
    requires Inv(db, cfg)
    ensures Inv(UploadSource(db, cfg, tenant, s, payload, screening, now, commits).db, cfg)
    ensures !UploadSource(db, cfg, tenant, s, payload, screening, now, commits).answer.StoreRefused?
  {
    hide Inv, Held;
    var step := UploadSource(db, cfg, tenant, s, payload, screening, now, commits);
    if step.db != db || step.answer.StoreRefused? || step.answer.RolledBack? {
      SourceHeld(db, cfg, s);
      PutInv(db, cfg, db.songs[s].key.value, payload);
      var put := db.(store := db.store[db.songs[s].key.value := payload]);
      if commits {
        MarkSongInv(put, cfg, s, step.db.songs[s]);
      }
    }
  }

  lemma CreateSessionInv(db: Db, cfg: Settings, tenant: Id, s: Id, m: Id, calibration: Version)
    requires Inv(db, cfg)
    ensures Inv(CreateSession(db, tenant, s, m, calibration).db, cfg)
  {
    var step := CreateSession(db, tenant, s, m, calibration);
    if step.answer.Created? {
      AddSessionInv(db, cfg, Session(tenant, s, m, calibration, None));
    }
  }

  lemma NewPhraseFits(db: Db, cfg: Settings, doc: PhraseDoc, expiresAt: Time)
    requires Inv(db, cfg)
    requires LiveSession(db, doc.tenant, doc.session) && doc.calibration == db.sessions[doc.session].calibration
    ensures PhraseOk(doc.phrase, NewPhrase(doc, db.sessions[doc.session].song, expiresAt), db.sessions, db.songs)
  {
    assert SessionOk(doc.session, db.sessions[doc.session], db.manifests, db.songs, db.next);
  }

  lemma ReservePhraseInv(db: Db, cfg: Settings, tenant: Id, doc: PhraseDoc, now: Time)
    requires Inv(db, cfg)
    ensures Inv(ReservePhrase(db, cfg, tenant, doc, now).db, cfg)
  {
    hide Inv, PhraseOk;
    var step := ReservePhrase(db, cfg, tenant, doc, now);
    if step.answer.Created? {
      NewPhraseFits(db, cfg, doc, now + cfg.ttl);
      AddPhraseInv(db, cfg, doc.phrase, NewPhrase(doc, db.sessions[doc.session].song, now + cfg.ttl));
    }
  }

  lemma PhraseHeld(db: Db, cfg: Settings, p: Id)
    requires Inv(db, cfg) && p in db.phrases && db.phrases[p].state != Erased
    ensures db.phrases[p].key.Some? && db.phrases[p].sha.Some? && db.phrases[p].deletedAt.None?
    ensures Held(db.phrases[p].key.value, db.songs, db.assets, db.phrases, db.tasks)
    ensures db.phrases[p].key.value.sha == db.phrases[p].sha.value
  {
    assert PhraseOk(p, db.phrases[p], db.sessions, db.songs);
  }

  lemma UploadPhraseInv(db: Db, cfg: Settings, tenant: Id, p: Id, payload: Blob, now: Time, commits: bool)
    requires Inv(db, cfg)
    ensures Inv(UploadPhrase(db, cfg, tenant, p, payload, now, commits).db, cfg)
    ensures !UploadPhrase(db, cfg, tenant, p, payload, now, commits).answer.StoreRefused?
  {
    hide Inv, Held;
    var step := UploadPhrase(db, cfg, tenant, p, payload, now, commits);
    if step.db != db || step.answer.StoreRefused? || step.answer.RolledBack? {
      PhraseHeld(db, cfg, p);
      PutInv(db, cfg, db.phrases[p].key.value, payload);
      var put := db.(store := db.store[db.phrases[p].key.value := payload]);
      if commits {
        MarkPhraseInv(put, cfg, p, now);
      }
    }
  }

  lemma EvidenceBacks(db: Db, tenant: Id, doc: ScoreDoc)
    requires RequireEvidence(db, tenant, doc) == Existing
    ensures Backed(db.assets, db.store, tenant, doc, Transport, doc.transport)
    ensures Backed(db.assets, db.store, tenant, doc, UserFeatures, doc.userFeatures)
  {
  }

  // What a submission without objections refers to.
  lemma ScoreTargets(db: Db, tenant: Id, doc: ScoreDoc, m: Id, now: Time)
    requires ScoreObjection(db, tenant, doc, m, now) == Existing
    ensures LiveSong(db, tenant, doc.song) && LiveSession(db, tenant, doc.session) && LivePhrase(db, tenant, doc.phrase)
    ensures db.sessions[doc.session].song == doc.song && db.sessions[doc.session].manifest == m
    ensures db.phrases[doc.phrase].song == doc.song && db.phrases[doc.phrase].session == doc.session
    ensures db.sessions[doc.session].calibration == db.phrases[doc.phrase].calibration == doc.calibration
    ensures LiveManifest(db, tenant, m) && db.manifests[m].song == doc.song && db.manifests[m].doc.Some?
    ensures db.manifests[m].scoreVersion == doc.scoreVersion && db.manifests[m].calibration == doc.calibration
    ensures db.manifests[m].doc.value.gate == GateAccepted
    ensures db.manifests[m].doc.value.reference == doc.reference && db.manifests[m].producedAt <= doc.producedAt
    ensures RequireEvidence(db, tenant, doc) == Existing
  {
    hide RequireEvidence;
  }

  lemma NewScoreFits(db: Db, cfg: Settings, tenant: Id, doc: ScoreDoc, idem: string, m: Id, now: Time)
    requires Inv(db, cfg) && doc.tenant == tenant
    requires ScoreObjection(db, tenant, doc, m, now) == Existing
    ensures ScoreOk(db.next, NewScore(doc, m, idem), db.phrases, db.sessions, db.manifests, db.songs, db.next + 1)
    ensures Backed(db.assets, db.store, tenant, doc, Transport, doc.transport)
    ensures Backed(db.assets, db.store, tenant, doc, UserFeatures, doc.userFeatures)
  {
    hide Inv, ScoreObjection, RequireEvidence, Backed;
    ScoreTargets(db, tenant, doc, m, now);
    EvidenceBacks(db, tenant, doc);
  }

  lemma WriteScoreInv(db: Db, cfg: Settings, tenant: Id, doc: ScoreDoc, idem: string, m: Id, now: Time)
    requires Inv(db, cfg)
    ensures Inv(WriteScore(db, tenant, doc, idem, m, now).db, cfg)
  {
    hide Inv, ScoreObjection, RequireEvidence, ScoreOk, Backed;
    var step := WriteScore(db, tenant, doc, idem, m, now);
    if step.answer.Created? && step.db != db {
      NewScoreFits(db, cfg, tenant, doc, idem, m, now);
      AddScoreInv(db, cfg, NewScore(doc, m, idem));
    }
  }
}
