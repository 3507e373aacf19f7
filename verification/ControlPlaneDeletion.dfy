// Deletion requests, expiry and the deletion worker keep the invariant.
module ControlPlaneDeletion {
  import opened ControlPlane
  import opened ControlPlaneInvariant
  import opened Options

  // ----- Requesting a song's deletion -----------------------------------------------------

  lemma UnrequestedSongIsLive(db: Db, cfg: Settings, tenant: Id, s: Id)
    requires Inv(db, cfg) && s in db.songs && db.songs[s].tenant == tenant
    requires RequestId(tenant, SongResource, s) !in db.requests
    ensures db.songs[s].deletedAt.None? && s < db.next
    ensures forall i :: i in db.tasks ==> i.request != RequestId(tenant, SongResource, s)
  {
    assert SongOk(s, db.songs[s], db.next);
    assert forall i :: i in db.tasks ==> TaskOk(i, db.tasks[i], db.requests, cfg.retryLimit);
  }

  // A key of the song's rows names the song, an asset of it or a phrase of it.
  lemma SongKeysAreIts(db: Db, cfg: Settings, tenant: Id, s: Id, k: Key)
    requires Inv(db, cfg) && s in db.songs && db.songs[s].tenant == tenant && k in SongKeys(db, tenant, s)
    ensures k.tenant == tenant
    ensures k.SourceKey? ==> k.song == s
    ensures k.AssetKey? ==> k.song == s && k.asset < db.next
    ensures k.PhraseKey? ==>
              k.phrase in db.phrases && db.phrases[k.phrase].tenant == tenant && db.phrases[k.phrase].song == s
  {
    hide UniqueOk, DeletionsOk, ObjectsOk, EvidenceOk, ScoresOk, ManifestsOk, SessionsOk;
    if db.songs[s].key == Some(k) {
      assert SongOk(s, db.songs[s], db.next);
    } else if p :| p in db.phrases && db.phrases[p].song == s && db.phrases[p].key == Some(k) {
      assert PhraseOk(p, db.phrases[p], db.sessions, db.songs);
    } else {
      var a :| a in db.assets && db.assets[a].song == s && db.assets[a].key == Some(k);
      assert AssetOk(a, db.assets[a], db.songs, db.next);
    }
  }

  // What the deletion does to each table, row by row.
  ghost predicate SongRowsErased(db: Db, after: Db, tenant: Id, s: Id, now: Time)
    requires s in db.songs
  {
    && after.songs == db.songs[s := EraseSong(db.songs[s], now)] && after.next == db.next && after.store == db.store
    && after.assets.Keys == db.assets.Keys
    && (forall a :: a in db.assets ==> after.assets[a] == AssetAfter(db.assets[a], tenant, s, now))
    && after.phrases.Keys == db.phrases.Keys
    && (forall p :: p in db.phrases ==> after.phrases[p] == PhraseAfter(db.phrases[p], tenant, s, now))
    && after.manifests.Keys == db.manifests.Keys
    && (forall m :: m in db.manifests ==> after.manifests[m] == ManifestAfter(db.manifests[m], tenant, s, now))
    && after.sessions.Keys == db.sessions.Keys
    && (forall n :: n in db.sessions ==> after.sessions[n] == SessionAfter(db.sessions[n], tenant, s, now))
    && after.scores.Keys == db.scores.Keys
    && (forall c :: c in db.scores ==> after.scores[c] == ScoreAfter(db.scores[c], tenant, s, now))
  }

  lemma RequestSongDeletionResult(db: Db, tenant: Id, s: Id, now: Time)
    ensures var step := RequestSongDeletion(db, tenant, s, now);
            if step.answer.Created? then
              s in db.songs && db.songs[s].tenant == tenant && RequestId(tenant, SongResource, s) !in db.requests
            else
              step.db == db
  {
    hide SongKeys, NewTasks, TaskIds, ManifestAfter, SessionAfter, PhraseAfter, AssetAfter, ScoreAfter, EraseSong;
  }

  lemma DeletionErases(db: Db, tenant: Id, s: Id, now: Time)
    requires s in db.songs && db.songs[s].tenant == tenant
    requires RequestId(tenant, SongResource, s) !in db.requests
    ensures var r, after := RequestId(tenant, SongResource, s), RequestSongDeletion(db, tenant, s, now).db;
            && SongRowsErased(db, after, tenant, s, now)
            && after.requests == db.requests[r := Request(Waiting, now, None)]
            && after.tasks == db.tasks + NewTasks(TaskIds(r, SongKeys(db, tenant, s)), now)
  {
    hide SongKeys, NewTasks, TaskIds;
  }

  lemma ErasedSong(db: Db, after: Db, tenant: Id, s: Id, now: Time)
    requires SongsOk(db.songs, db.next) && s in db.songs && SongRowsErased(db, after, tenant, s, now)
    ensures SongsOk(after.songs, after.next)
  {
    hide AssetAfter, PhraseAfter, ManifestAfter, SessionAfter, ScoreAfter;
  }

  lemma ErasedAssets(db: Db, after: Db, tenant: Id, s: Id, now: Time)
    requires AssetsOk(db.assets, db.songs, db.next) && s in db.songs && db.songs[s].tenant == tenant
    requires db.songs[s].deletedAt.None? && SongRowsErased(db, after, tenant, s, now)
    ensures AssetsOk(after.assets, after.songs, after.next)
  {
    hide PhraseAfter, ManifestAfter, SessionAfter, ScoreAfter;
    forall a | a in after.assets
      ensures AssetOk(a, after.assets[a], after.songs, after.next)
    {
      assert AssetOk(a, db.assets[a], db.songs, db.next);
    }
  }

  lemma ErasedManifests(db: Db, after: Db, tenant: Id, s: Id, now: Time)
    requires ManifestsOk(db.manifests, db.songs, db.next) && s in db.songs && db.songs[s].tenant == tenant
    requires db.songs[s].deletedAt.None? && SongRowsErased(db, after, tenant, s, now)
    ensures ManifestsOk(after.manifests, after.songs, after.next)
  {
    hide AssetAfter, PhraseAfter, SessionAfter, ScoreAfter;
    forall m | m in after.manifests
      ensures ManifestOk(m, after.manifests[m], after.songs, after.next)
    {
      assert ManifestOk(m, db.manifests[m], db.songs, db.next);
    }
  }

  lemma ErasedSessions(db: Db, after: Db, tenant: Id, s: Id, now: Time)
    requires RowsOk(db) && s in db.songs && db.songs[s].tenant == tenant && db.songs[s].deletedAt.None?
    requires SongRowsErased(db, after, tenant, s, now)
    ensures SessionsOk(after.sessions, after.manifests, after.songs, after.next)
  {
    hide ScoresOk, EvidenceOk, SongsOk, AssetsOk, ManifestsOk, PhrasesOk;
    forall n | n in after.sessions
      ensures SessionOk(n, after.sessions[n], after.manifests, after.songs, after.next)
    {
      assert SessionOk(n, db.sessions[n], db.manifests, db.songs, db.next);
    }
  }

  lemma ErasedPhrases(db: Db, after: Db, tenant: Id, s: Id, now: Time)
    requires RowsOk(db) && s in db.songs && db.songs[s].tenant == tenant && db.songs[s].deletedAt.None?
    requires SongRowsErased(db, after, tenant, s, now)
    ensures PhrasesOk(after.phrases, after.sessions, after.songs)
  {
    hide ScoresOk, EvidenceOk, SongsOk, AssetsOk, ManifestsOk, SessionsOk;
    forall p | p in after.phrases
      ensures PhraseOk(p, after.phrases[p], after.sessions, after.songs)
    {
      assert PhraseOk(p, db.phrases[p], db.sessions, db.songs);
    }
  }

  lemma ErasedScores(db: Db, after: Db, tenant: Id, s: Id, now: Time)
    requires RowsOk(db) && s in db.songs && db.songs[s].tenant == tenant && db.songs[s].deletedAt.None?
    requires SongRowsErased(db, after, tenant, s, now)
    ensures ScoresOk(after.scores, after.phrases, after.sessions, after.manifests, after.songs, after.next)
  {
    hide AssetsOk, ManifestsOk, SessionsOk, PhrasesOk, EvidenceOk, SongsOk, AssetAfter;
    forall c | c in after.scores
      ensures ScoreOk(c, after.scores[c], after.phrases, after.sessions, after.manifests, after.songs, after.next)
    {
      assert ScoreOk(c, db.scores[c], db.phrases, db.sessions, db.manifests, db.songs, db.next);
    }
  }

  lemma ErasedScoreBacked(db: Db, after: Db, tenant: Id, s: Id, now: Time, c: Id)
    requires EvidenceOk(db.scores, db.assets, db.store)
    requires ScoresOk(db.scores, db.phrases, db.sessions, db.manifests, db.songs, db.next)
    requires s in db.songs && db.songs[s].tenant == tenant && SongRowsErased(db, after, tenant, s, now)
    requires c in after.scores && after.scores[c].deletedAt.None? && after.scores[c].doc.Some?
    ensures var row := after.scores[c];
            && Backed(after.assets, after.store, row.tenant, row.doc.value, Transport, row.doc.value.transport)
            && Backed(after.assets, after.store, row.tenant, row.doc.value, UserFeatures, row.doc.value.userFeatures)
  {
    hide SongRowsErased, Backed;
    ScoreRowAfter(db, after, tenant, s, now, c);
    var row := db.scores[c];
    assert ScoreOk(c, row, db.phrases, db.sessions, db.manifests, db.songs, db.next);
    OtherSongBacked(db, after, tenant, s, now, row.tenant, row.doc.value, Transport, row.doc.value.transport);
    OtherSongBacked(db, after, tenant, s, now, row.tenant, row.doc.value, UserFeatures, row.doc.value.userFeatures);
  }

  lemma ScoreRowAfter(db: Db, after: Db, tenant: Id, s: Id, now: Time, c: Id)
    requires s in db.songs && SongRowsErased(db, after, tenant, s, now) && c in after.scores
    ensures c in db.scores && after.scores[c] == ScoreAfter(db.scores[c], tenant, s, now)
  {
    hide AssetAfter, PhraseAfter, ManifestAfter, SessionAfter, ScoreAfter;
  }

  lemma ErasedEvidence(db: Db, after: Db, tenant: Id, s: Id, now: Time)
    requires RowsOk(db) && s in db.songs && db.songs[s].tenant == tenant && db.songs[s].deletedAt.None?
    requires SongRowsErased(db, after, tenant, s, now)
    ensures EvidenceOk(after.scores, after.assets, after.store)
  {
    hide AssetsOk, ManifestsOk, SessionsOk, PhrasesOk, SongsOk, ScoresOk, SongRowsErased, Backed;
    forall c | c in after.scores && after.scores[c].deletedAt.None? && after.scores[c].doc.Some?
      ensures var row := after.scores[c];
              && Backed(after.assets, after.store, row.tenant, row.doc.value, Transport, row.doc.value.transport)
              && Backed(after.assets, after.store, row.tenant, row.doc.value, UserFeatures, row.doc.value.userFeatures)
    {
      ErasedScoreBacked(db, after, tenant, s, now, c);
    }
  }

  lemma OtherSongBacked(db: Db, after: Db, tenant: Id, s: Id, now: Time, t: Id, doc: ScoreDoc, kind: AssetKind,
                        digest: Option<Blob>)
    requires s in db.songs && SongRowsErased(db, after, tenant, s, now)
    requires Backed(db.assets, db.store, t, doc, kind, digest) && (doc.song != s || t != tenant)
    ensures Backed(after.assets, after.store, t, doc, kind, digest)
  {
    var a :| a in db.assets && EvidenceMatches(db.assets[a], t, doc, kind, digest.value)
             && db.assets[a].state == Stored && db.assets[a].key.Some? && db.assets[a].key.value in db.store;
    assert after.assets[a] == db.assets[a];
  }

  lemma ErasedSongUnique(songs: Songs, s: Id, now: Time)
    requires SongsUnique(songs) && s in songs
    ensures SongsUnique(songs[s := EraseSong(songs[s], now)])
  {
  }

  lemma ErasedManifestsUnique(rows: Manifests, rows': Manifests, tenant: Id, s: Id, now: Time)
    requires ManifestsUnique(rows) && rows'.Keys == rows.Keys
    requires forall m :: m in rows ==> rows'[m] == ManifestAfter(rows[m], tenant, s, now)
    ensures ManifestsUnique(rows')
  {
  }

  lemma ErasedPhrasesUnique(rows: Phrases, rows': Phrases, tenant: Id, s: Id, now: Time)
    requires PhrasesUnique(rows) && rows'.Keys == rows.Keys
    requires forall p :: p in rows ==> rows'[p] == PhraseAfter(rows[p], tenant, s, now)
    ensures PhrasesUnique(rows')
  {
  }

  lemma ErasedScoresUnique(rows: Scores, rows': Scores, tenant: Id, s: Id, now: Time)
    requires ScoresUnique(rows) && rows'.Keys == rows.Keys
    requires forall c :: c in rows ==> rows'[c] == ScoreAfter(rows[c], tenant, s, now)
    ensures ScoresUnique(rows')
  {
  }

  lemma ErasedUnique(db: Db, after: Db, tenant: Id, s: Id, now: Time)
    requires UniqueOk(db) && s in db.songs && SongRowsErased(db, after, tenant, s, now)
    ensures UniqueOk(after)
  {
    hide SongsUnique, ManifestsUnique, PhrasesUnique, ScoresUnique;
    hide EraseSong, ManifestAfter, PhraseAfter, ScoreAfter, AssetAfter, SessionAfter;
    ErasedSongUnique(db.songs, s, now);
    ErasedManifestsUnique(db.manifests, after.manifests, tenant, s, now);
    ErasedPhrasesUnique(db.phrases, after.phrases, tenant, s, now);
    ErasedScoresUnique(db.scores, after.scores, tenant, s, now);
  }

  lemma NewTaskOk(db: Db, cfg: Settings, after: Db, tenant: Id, s: Id, now: Time, i: TaskId)
    requires Inv(db, cfg) && cfg.retryLimit >= 1 && s in db.songs && db.songs[s].tenant == tenant
    requires SongRowsErased(db, after, tenant, s, now)
             && i in TaskIds(RequestId(tenant, SongResource, s), SongKeys(db, tenant, s))
    requires RequestId(tenant, SongResource, s) in after.requests
    requires after.requests[RequestId(tenant, SongResource, s)].status == Waiting
    ensures TaskOk(i, NewTask(i.key, now), after.requests, cfg.retryLimit)
            && TaskKeyOk(i, after.requests, after.phrases, after.next)
  {
    hide Inv, SongRowsErased, SongKeys;
    if i.key.Some? {
      SongKeysAreIts(db, cfg, tenant, s, i.key.value);
      if i.key.value.PhraseKey? {
        ErasedPhraseOwner(db, after, tenant, s, now, i.key.value.phrase);
      }
    }
    NextKept(db, after, tenant, s, now);
  }

  lemma NextKept(db: Db, after: Db, tenant: Id, s: Id, now: Time)
    requires s in db.songs && SongRowsErased(db, after, tenant, s, now)
    ensures after.next == db.next
  {
  }

  lemma OldTaskOk(db: Db, cfg: Settings, after: Db, tenant: Id, s: Id, now: Time, i: TaskId)
    requires Inv(db, cfg) && s in db.songs && SongRowsErased(db, after, tenant, s, now) && i in db.tasks
    requires RequestId(tenant, SongResource, s) !in db.requests
    requires after.requests == db.requests[RequestId(tenant, SongResource, s) := Request(Waiting, now, None)]
    ensures TaskOk(i, db.tasks[i], after.requests, cfg.retryLimit)
            && TaskKeyOk(i, after.requests, after.phrases, after.next)
  {
    hide RowsOk, UniqueOk, ObjectsOk, OutcomesOk, RequestsOk, SongRowsErased;
    assert TaskOk(i, db.tasks[i], db.requests, cfg.retryLimit) && TaskKeyOk(i, db.requests, db.phrases, db.next);
    NextKept(db, after, tenant, s, now);
    if i.key.Some? && i.key.value.PhraseKey? && i.key.value.phrase in db.phrases {
      ErasedPhraseOwner(db, after, tenant, s, now, i.key.value.phrase);
    }
  }

  lemma DeletionTask(db: Db, cfg: Settings, tenant: Id, s: Id, now: Time, i: TaskId)
    requires Inv(db, cfg) && cfg.retryLimit >= 1 && s in db.songs && db.songs[s].tenant == tenant
    requires RequestId(tenant, SongResource, s) !in db.requests
    requires i in RequestSongDeletion(db, tenant, s, now).db.tasks
    ensures var after := RequestSongDeletion(db, tenant, s, now).db;
            TaskOk(i, after.tasks[i], after.requests, cfg.retryLimit)
                && TaskKeyOk(i, after.requests, after.phrases, after.next)
  {
    hide Inv, SongKeys, RequestSongDeletion, SongRowsErased, TaskIds, TaskOk, TaskKeyOk;
    var r, after := RequestId(tenant, SongResource, s), RequestSongDeletion(db, tenant, s, now).db;
    DeletionErases(db, tenant, s, now);
    if i in TaskIds(r, SongKeys(db, tenant, s)) {
      NewTaskOk(db, cfg, after, tenant, s, now, i);
    } else {
      OldTaskOk(db, cfg, after, tenant, s, now, i);
    }
  }

  lemma DeletionTasks(db: Db, cfg: Settings, tenant: Id, s: Id, now: Time)
    requires Inv(db, cfg) && cfg.retryLimit >= 1 && s in db.songs && db.songs[s].tenant == tenant
    requires RequestId(tenant, SongResource, s) !in db.requests
    ensures DeletionsOk(RequestSongDeletion(db, tenant, s, now).db, cfg)
  {
    hide UniqueOk, RowsOk, ObjectsOk, SongKeys, RequestSongDeletion, OutcomesOk, TaskOk, TaskKeyOk, NewTasks;
    var after := RequestSongDeletion(db, tenant, s, now).db;
    DeletionErases(db, tenant, s, now);
    UnrequestedSongIsLive(db, cfg, tenant, s);
    forall i | i in after.tasks
      ensures TaskOk(i, after.tasks[i], after.requests, cfg.retryLimit)
              && TaskKeyOk(i, after.requests, after.phrases, after.next)
    {
      DeletionTask(db, cfg, tenant, s, now, i);
    }
    DeletionOutcomes(db, cfg, tenant, s, now);
  }

  lemma TasksExist(r: RequestId, keys: set<Key>)
    ensures TaskIds(r, keys) != {} && forall i :: i in TaskIds(r, keys) ==> i.request == r
  {
    if k :| k in keys {
      assert TaskId(r, Some(k)) in TaskIds(r, keys);
    } else {
      assert TaskId(r, None) in TaskIds(r, keys);
    }
  }

  // Adding new waiting tasks for one request keeps every outcome.
  lemma OutcomesExtend(tasks: Tasks, requests: Requests, r: RequestId, ids: set<TaskId>, now: Time)
    requires OutcomesOk(tasks, requests) && ids != {} && forall i :: i in ids ==> i.request == r && i !in tasks
    ensures OutcomesOk(tasks + NewTasks(ids, now), requests[r := Request(Waiting, now, None)])
  {
    var after := tasks + NewTasks(ids, now);
    var first :| first in ids;
    assert first in after;
    forall q | q in requests && SomeFailed(tasks, q)
      ensures SomeFailed(after, q)
    {
      var i :| i in tasks && i.request == q && tasks[i].status == Failed;
      assert after[i] == tasks[i];
    }
    forall q | q in requests && HasTask(tasks, q)
      ensures HasTask(after, q)
    {
      var i :| i in tasks && i.request == q;
      assert i in after;
    }
  }

  lemma DeletionOutcomes(db: Db, cfg: Settings, tenant: Id, s: Id, now: Time)
    requires Inv(db, cfg) && s in db.songs && db.songs[s].tenant == tenant
    requires RequestId(tenant, SongResource, s) !in db.requests
    ensures var after := RequestSongDeletion(db, tenant, s, now).db;
            OutcomesOk(after.tasks, after.requests)
  {
    hide SongKeys, RequestSongDeletion, SongRowsErased, RowsOk, UniqueOk, ObjectsOk, RequestsOk, TasksOk, OutcomesOk,
         NewTasks, TaskIds;
    var r, keys := RequestId(tenant, SongResource, s), SongKeys(db, tenant, s);
    DeletionErases(db, tenant, s, now);
    UnrequestedSongIsLive(db, cfg, tenant, s);
    TasksExist(r, keys);
    OutcomesExtend(db.tasks, db.requests, r, TaskIds(r, keys), now);
  }

  // A key stays held when the row or the unfinished task that answers for it does.
  lemma HeldStays(k: Key, db: Db, after: Db)
    requires Held(k, db.songs, db.assets, db.phrases, db.tasks)
    requires forall q :: OpenTask(db.tasks, q, k) ==> OpenTask(after.tasks, q, k)
    requires k.SourceKey? && k.song in db.songs && db.songs[k.song].key == Some(k) ==>
               k.song in after.songs && after.songs[k.song].key == Some(k)
    requires k.AssetKey? && k.asset in db.assets && db.assets[k.asset].key == Some(k) ==>
               k.asset in after.assets && after.assets[k.asset].key == Some(k)
    requires k.PhraseKey? && k.phrase in db.phrases && db.phrases[k.phrase].key == Some(k) ==>
               k.phrase in after.phrases && after.phrases[k.phrase].key == Some(k)
    requires k.PhraseKey? && k.phrase in db.phrases
             && OpenTask(db.tasks, RequestId(db.phrases[k.phrase].tenant, SongResource, db.phrases[k.phrase].song),
                         k) ==>
               && k.phrase in after.phrases && after.phrases[k.phrase].tenant == db.phrases[k.phrase].tenant
               && after.phrases[k.phrase].song == db.phrases[k.phrase].song
    ensures Held(k, after.songs, after.assets, after.phrases, after.tasks)
  {
    hide OpenTask;
  }

  lemma ErasedRowKeys(db: Db, after: Db, tenant: Id, s: Id, now: Time, k: Key)
    requires s in db.songs && SongRowsErased(db, after, tenant, s, now) && k !in SongKeys(db, tenant, s)
    ensures k.SourceKey? && k.song in db.songs && db.songs[k.song].key == Some(k) ==>
              k.song in after.songs && after.songs[k.song].key == Some(k)
    ensures k.AssetKey? && k.asset in db.assets && db.assets[k.asset].key == Some(k) ==>
              k.asset in after.assets && after.assets[k.asset].key == Some(k)
    ensures k.PhraseKey? && k.phrase in db.phrases && db.phrases[k.phrase].key == Some(k) ==>
              k.phrase in after.phrases && after.phrases[k.phrase].key == Some(k)
  {
    hide ManifestAfter, SessionAfter, ScoreAfter;
  }

  lemma ErasedPhraseOwner(db: Db, after: Db, tenant: Id, s: Id, now: Time, p: Id)
    requires s in db.songs && SongRowsErased(db, after, tenant, s, now) && p in db.phrases
    ensures p in after.phrases
    ensures after.phrases[p].tenant == db.phrases[p].tenant && after.phrases[p].song == db.phrases[p].song
  {
    hide AssetAfter, ManifestAfter, SessionAfter, ScoreAfter;
  }

  lemma OpenTasksStay(tasks: Tasks, created: Tasks, k: Key)
    requires forall i :: i in created ==> i !in tasks
    ensures forall q :: OpenTask(tasks, q, k) ==> OpenTask(tasks + created, q, k)
  {
  }

  lemma NewTasksAreNew(db: Db, cfg: Settings, tenant: Id, s: Id, now: Time)
    requires Inv(db, cfg) && s in db.songs && db.songs[s].tenant == tenant
    requires RequestId(tenant, SongResource, s) !in db.requests
    ensures var r := RequestId(tenant, SongResource, s);
            forall i :: i in NewTasks(TaskIds(r, SongKeys(db, tenant, s)), now) ==> i !in db.tasks
  {
    hide Inv, SongKeys;
    UnrequestedSongIsLive(db, cfg, tenant, s);
  }

  lemma DeletionHeld(db: Db, cfg: Settings, tenant: Id, s: Id, now: Time, k: Key)
    requires Inv(db, cfg) && s in db.songs && db.songs[s].tenant == tenant
    requires RequestId(tenant, SongResource, s) !in db.requests
    requires Held(k, db.songs, db.assets, db.phrases, db.tasks)
    ensures var after := RequestSongDeletion(db, tenant, s, now).db;
            Held(k, after.songs, after.assets, after.phrases, after.tasks)
  {
    hide Inv, RequestSongDeletion, SongRowsErased, SongKeys, OpenTask;
    var after := RequestSongDeletion(db, tenant, s, now).db;
    DeletionErases(db, tenant, s, now);
    if k.PhraseKey? && k.phrase in db.phrases {
      ErasedPhraseOwner(db, after, tenant, s, now, k.phrase);
    }
    if k in SongKeys(db, tenant, s) {
      ListedKeyIsOpen(db, after, tenant, s, now, k);
      SongKeysAreIts(db, cfg, tenant, s, k);
    } else {
      hide Held, NewTasks, TaskIds;
      NewTasksAreNew(db, cfg, tenant, s, now);
      OpenTasksStay(db.tasks, NewTasks(TaskIds(RequestId(tenant, SongResource, s), SongKeys(db, tenant, s)), now), k);
      ErasedRowKeys(db, after, tenant, s, now, k);
      HeldStays(k, db, after);
    }
  }

  lemma ListedKeyIsOpen(db: Db, after: Db, tenant: Id, s: Id, now: Time, k: Key)
    requires k in SongKeys(db, tenant, s)
    requires after.tasks == db.tasks + NewTasks(TaskIds(RequestId(tenant, SongResource, s), SongKeys(db, tenant, s)),
                                                now)
    ensures OpenTask(after.tasks, RequestId(tenant, SongResource, s), k)
  {
    hide SongKeys;
    assert TaskId(RequestId(tenant, SongResource, s), Some(k)) in
           TaskIds(RequestId(tenant, SongResource, s), SongKeys(db, tenant, s));
  }

  lemma DeletionRows(db: Db, after: Db, tenant: Id, s: Id, now: Time)
    requires RowsOk(db) && UniqueOk(db)
    requires s in db.songs && db.songs[s].tenant == tenant && db.songs[s].deletedAt.None?
    requires SongRowsErased(db, after, tenant, s, now)
    ensures RowsOk(after) && UniqueOk(after)
  {
    hide AssetsOk, ManifestsOk, SessionsOk, PhrasesOk, ScoresOk, EvidenceOk, SongsOk, UniqueOk, SongRowsErased;
    ErasedSong(db, after, tenant, s, now);
    ErasedAssets(db, after, tenant, s, now);
    ErasedManifests(db, after, tenant, s, now);
    ErasedSessions(db, after, tenant, s, now);
    ErasedPhrases(db, after, tenant, s, now);
    ErasedScores(db, after, tenant, s, now);
    ErasedEvidence(db, after, tenant, s, now);
    ErasedUnique(db, after, tenant, s, now);
  }

  lemma ErasedStored(db: Db, after: Db, tenant: Id, s: Id, now: Time)
    requires StoredOk(db.store, db.songs, db.assets) && s in db.songs && SongRowsErased(db, after, tenant, s, now)
    ensures StoredOk(after.store, after.songs, after.assets)
  {
    hide PhraseAfter, ManifestAfter, SessionAfter, ScoreAfter;
  }

  lemma DeletionObjects(db: Db, cfg: Settings, tenant: Id, s: Id, now: Time)
    requires Inv(db, cfg) && s in db.songs && db.songs[s].tenant == tenant
    requires RequestId(tenant, SongResource, s) !in db.requests
    ensures ObjectsOk(RequestSongDeletion(db, tenant, s, now).db)
  {
    hide RowsOk, UniqueOk, DeletionsOk, StoredOk, Held, RequestSongDeletion, SongKeys, NewTasks, TaskIds;
    var after := RequestSongDeletion(db, tenant, s, now).db;
    DeletionErases(db, tenant, s, now);
    ErasedStored(db, after, tenant, s, now);
    forall k | k in db.store
      ensures Held(k, after.songs, after.assets, after.phrases, after.tasks)
    {
      DeletionHeld(db, cfg, tenant, s, now, k);
    }
    hide EraseSong, AssetAfter, PhraseAfter, ManifestAfter, SessionAfter, ScoreAfter;
  }

  lemma RequestSongDeletionInv(db: Db, cfg: Settings, tenant: Id, s: Id, now: Time)
    requires Inv(db, cfg) && cfg.retryLimit >= 1
    ensures Inv(RequestSongDeletion(db, tenant, s, now).db, cfg)
  {
    hide RowsOk, UniqueOk, DeletionsOk, ObjectsOk, SongRowsErased;
    RequestSongDeletionResult(db, tenant, s, now);
    if RequestSongDeletion(db, tenant, s, now).answer.Created? {
      hide RequestSongDeletion;
      DeletionErases(db, tenant, s, now);
      UnrequestedSongIsLive(db, cfg, tenant, s);
      DeletionRows(db, RequestSongDeletion(db, tenant, s, now).db, tenant, s, now);
      DeletionTasks(db, cfg, tenant, s, now);
      DeletionObjects(db, cfg, tenant, s, now);
    }
  }

  // ----- Expiring phrase audio ------------------------------------------------------------------

  // Phrases keep everything others refer to.
  ghost predicate PhrasesRefer(phrases: Phrases, phrases': Phrases) {
    phrases.Keys == phrases'.Keys &&
    forall p :: p in phrases ==>
      phrases'[p].(state := phrases[p].state, key := phrases[p].key, uploadedAt := phrases[p].uploadedAt) == phrases[p]
  }

  lemma PhrasesReferOthers(db: Db, cfg: Settings, phrases': Phrases)
    requires Inv(db, cfg) && PhrasesRefer(db.phrases, phrases')
    ensures ScoresOk(db.scores, phrases', db.sessions, db.manifests, db.songs, db.next)
    ensures PhrasesUnique(phrases')
    ensures forall i :: i in db.tasks ==> TaskKeyOk(i, db.requests, phrases', db.next)
  {
    hide AssetsOk, ManifestsOk, SessionsOk, PhrasesOk, EvidenceOk, SongsOk, SongsUnique, ManifestsUnique, ScoresUnique;
    hide RequestsOk, OutcomesOk, ObjectsOk;
    forall c | c in db.scores
      ensures ScoreOk(c, db.scores[c], phrases', db.sessions, db.manifests, db.songs, db.next)
    {
      assert ScoreOk(c, db.scores[c], db.phrases, db.sessions, db.manifests, db.songs, db.next);
    }
  }

  lemma ExpiringPhraseOwns(db: Db, cfg: Settings, tenant: Id, now: Time, p: Id)
    requires Inv(db, cfg) && Expiring(db, tenant, now, p)
    ensures db.phrases[p].key.Some? && db.phrases[p].key.value.PhraseKey?
    ensures db.phrases[p].key.value.tenant == tenant && db.phrases[p].key.value.phrase == p
    ensures forall i :: i in db.tasks ==> i.request != RequestId(tenant, PhraseAudio, p)
  {
    assert PhraseOk(p, db.phrases[p], db.sessions, db.songs);
    assert forall i :: i in db.tasks ==> TaskOk(i, db.tasks[i], db.requests, cfg.retryLimit);
  }

  // What the pass does to each table, row by row.
  ghost predicate ExpiryChanges(db: Db, after: Db, tenant: Id, now: Time) {
    && after == db.(phrases := after.phrases, requests := after.requests, tasks := after.tasks)
    && after.phrases.Keys == db.phrases.Keys
    && (forall p :: p in db.phrases ==> after.phrases[p] ==
                                        if Expiring(db, tenant, now, p) then
                                          ExpirePhrase(db.phrases[p]) else db.phrases[p])
    && (forall r :: r in db.requests ==> r in after.requests && after.requests[r] == db.requests[r])
    && (forall r :: r in after.requests && r !in db.requests ==>
          && r == RequestId(tenant, PhraseAudio, r.resource) && Expiring(db, tenant, now, r.resource)
          && after.requests[r] == ExpiryRequest(db.phrases[r.resource], now))
    && (forall i :: i in db.tasks ==> i in after.tasks && after.tasks[i] == db.tasks[i])
    && (forall i :: i in after.tasks && i !in db.tasks ==>
          && i.request == RequestId(tenant, PhraseAudio, i.request.resource)
          && Expiring(db, tenant, now, i.request.resource) && i.key == db.phrases[i.request.resource].key
          && after.tasks[i] == NewTask(i.key, now))
    && (forall p :: Expiring(db, tenant, now, p) ==> RequestId(tenant, PhraseAudio, p) in after.requests)
    && (forall p :: Expiring(db, tenant, now, p) && db.phrases[p].key.Some? ==>
          TaskId(RequestId(tenant, PhraseAudio, p), db.phrases[p].key) in after.tasks)
  }

  lemma ExpiryPhrases(db: Db, tenant: Id, now: Time)
    ensures var after := ExpireRawAudio(db, tenant, now).db;
            && after == db.(phrases := after.phrases, requests := after.requests, tasks := after.tasks)
            && after.phrases.Keys == db.phrases.Keys
            && (forall p :: p in db.phrases ==> after.phrases[p] ==
                                                if Expiring(db, tenant, now, p) then
                                                  ExpirePhrase(db.phrases[p]) else db.phrases[p])
  {
    hide NewTasks, Expired;
  }

  lemma ExpiryRequests(db: Db, tenant: Id, now: Time)
    ensures var after := ExpireRawAudio(db, tenant, now).db;
            && (forall r :: r in db.requests ==> r in after.requests && after.requests[r] == db.requests[r])
            && (forall r :: r in after.requests && r !in db.requests ==>
                  && r == RequestId(tenant, PhraseAudio, r.resource) && Expiring(db, tenant, now, r.resource)
                  && after.requests[r] == ExpiryRequest(db.phrases[r.resource], now))
            && (forall p :: Expiring(db, tenant, now, p) ==> RequestId(tenant, PhraseAudio, p) in after.requests)
  {
    hide NewTasks, Expired;
    var after := ExpireRawAudio(db, tenant, now).db;
    var expiring := set p | p in db.phrases && Expiring(db, tenant, now, p);
    forall p | Expiring(db, tenant, now, p)
      ensures RequestId(tenant, PhraseAudio, p) in after.requests
    {
      assert p in expiring;
      assert RequestId(tenant, PhraseAudio, p) in (set p | p in expiring :: RequestId(tenant, PhraseAudio, p));
    }
  }

  lemma ExpiryTasks(db: Db, tenant: Id, now: Time)
    requires forall i :: i in db.tasks ==> i.request in db.requests
    ensures var after := ExpireRawAudio(db, tenant, now).db;
            && (forall i :: i in db.tasks ==> i in after.tasks && after.tasks[i] == db.tasks[i])
            && (forall i :: i in after.tasks && i !in db.tasks ==>
                  && i.request == RequestId(tenant, PhraseAudio, i.request.resource)
                  && Expiring(db, tenant, now, i.request.resource) && i.key == db.phrases[i.request.resource].key
                  && after.tasks[i] == NewTask(i.key, now))
            && (forall p :: Expiring(db, tenant, now, p) && db.phrases[p].key.Some? ==>
                  TaskId(RequestId(tenant, PhraseAudio, p), db.phrases[p].key) in after.tasks)
  {
    hide Expired;
    var after := ExpireRawAudio(db, tenant, now).db;
    var expiring := set p | p in db.phrases && Expiring(db, tenant, now, p);
    var keyed := set p | p in expiring && db.phrases[p].key.Some?;
    var ids := set p | p in keyed :: TaskId(RequestId(tenant, PhraseAudio, p), db.phrases[p].key);
    assert after.tasks == db.tasks + NewTasks(ids, now);
    forall p | Expiring(db, tenant, now, p) && db.phrases[p].key.Some?
      ensures TaskId(RequestId(tenant, PhraseAudio, p), db.phrases[p].key) in after.tasks
    {
      assert p in keyed;
      assert TaskId(RequestId(tenant, PhraseAudio, p), db.phrases[p].key) in ids;
    }
  }

  lemma TasksHaveRequests(db: Db, cfg: Settings)
    requires Inv(db, cfg)
    ensures forall i :: i in db.tasks ==> i.request in db.requests
  {
    hide RowsOk, UniqueOk, ObjectsOk;
    assert forall i :: i in db.tasks ==> TaskOk(i, db.tasks[i], db.requests, cfg.retryLimit);
  }

  lemma ExpiryIsChange(db: Db, cfg: Settings, tenant: Id, now: Time)
    requires Inv(db, cfg)
    ensures ExpiryChanges(db, ExpireRawAudio(db, tenant, now).db, tenant, now)
  {
    hide Inv, Expiring, NewTasks, ExpireRawAudio;
    TasksHaveRequests(db, cfg);
    ExpiryPhrases(db, tenant, now);
    ExpiryRequests(db, tenant, now);
    ExpiryTasks(db, tenant, now);
  }

  lemma ExpiredPhrasesOk(db: Db, cfg: Settings, after: Db, tenant: Id, now: Time)
    requires Inv(db, cfg) && ExpiryChanges(db, after, tenant, now)
    ensures PhrasesRefer(db.phrases, after.phrases) && PhrasesOk(after.phrases, db.sessions, db.songs)
  {
    hide UniqueOk, DeletionsOk, ObjectsOk, ScoresOk, EvidenceOk, SongsOk, AssetsOk, ManifestsOk, SessionsOk;
    forall p | p in after.phrases
      ensures PhraseOk(p, after.phrases[p], db.sessions, db.songs)
    {
      assert PhraseOk(p, db.phrases[p], db.sessions, db.songs);
    }
  }

  // Every task and request after the pass is an old one or an expired phrase's.
  lemma ExpiredTaskOk(db: Db, cfg: Settings, after: Db, tenant: Id, now: Time, i: TaskId)
    requires Inv(db, cfg) && cfg.retryLimit >= 1 && ExpiryChanges(db, after, tenant, now) && i in after.tasks
    ensures TaskOk(i, after.tasks[i], after.requests, cfg.retryLimit)
            && TaskKeyOk(i, after.requests, after.phrases, after.next)
  {
    hide RowsOk, UniqueOk, ObjectsOk, Expired, OutcomesOk, RequestsOk;
    if i in db.tasks {
      assert TaskOk(i, db.tasks[i], db.requests, cfg.retryLimit) && TaskKeyOk(i, db.requests, db.phrases, db.next);
    } else {
      ExpiringPhraseOwns(db, cfg, tenant, now, i.request.resource);
    }
  }

  lemma ExpiredRequestOk(db: Db, cfg: Settings, after: Db, tenant: Id, now: Time, r: RequestId)
    requires Inv(db, cfg) && ExpiryChanges(db, after, tenant, now) && r in after.requests
    ensures RequestOk(r, after.requests[r], after.songs, after.next)
    ensures after.requests[r].status == Failed ==> SomeFailed(after.tasks, r)
    ensures r.kind == SongResource || after.requests[r].status == Waiting ==> HasTask(after.tasks, r)
  {
    hide RowsOk, UniqueOk, ObjectsOk, Expiring, TasksOk;
    if r in db.requests {
      assert RequestOk(r, db.requests[r], db.songs, db.next);
      OldTasksRemain(db.tasks, after.tasks, r);
    } else {
      ExpiringPhraseOwns(db, cfg, tenant, now, r.resource);
    }
  }

  lemma ExpiredDeletionsOk(db: Db, cfg: Settings, after: Db, tenant: Id, now: Time)
    requires Inv(db, cfg) && cfg.retryLimit >= 1 && ExpiryChanges(db, after, tenant, now)
    ensures DeletionsOk(after, cfg)
  {
    hide RowsOk, UniqueOk, ObjectsOk, TaskOk, TaskKeyOk, RequestOk, HasTask, SomeFailed;
    forall i | i in after.tasks
      ensures TaskOk(i, after.tasks[i], after.requests, cfg.retryLimit)
              && TaskKeyOk(i, after.requests, after.phrases, after.next)
    {
      ExpiredTaskOk(db, cfg, after, tenant, now, i);
    }
    forall r | r in after.requests
      ensures RequestOk(r, after.requests[r], after.songs, after.next)
      ensures after.requests[r].status == Failed ==> SomeFailed(after.tasks, r)
      ensures r.kind == SongResource || after.requests[r].status == Waiting ==> HasTask(after.tasks, r)
    {
      ExpiredRequestOk(db, cfg, after, tenant, now, r);
    }
  }

  lemma OldTasksRemain(tasks: Tasks, tasks': Tasks, r: RequestId)
    requires forall i :: i in tasks ==> i in tasks' && tasks'[i] == tasks[i]
    ensures HasTask(tasks, r) ==> HasTask(tasks', r)
    ensures SomeFailed(tasks, r) ==> SomeFailed(tasks', r)
  {
    if HasTask(tasks, r) {
      var i :| i in tasks && i.request == r;
      assert i in tasks';
    }
    if SomeFailed(tasks, r) {
      var i :| i in tasks && i.request == r && tasks[i].status == Failed;
      assert tasks'[i].status == Failed;
    }
  }

  lemma ExpiryHeld(db: Db, cfg: Settings, after: Db, tenant: Id, now: Time, k: Key)
    requires Inv(db, cfg) && ExpiryChanges(db, after, tenant, now)
    requires Held(k, db.songs, db.assets, db.phrases, db.tasks)
    ensures Held(k, after.songs, after.assets, after.phrases, after.tasks)
  {
    hide Inv, Expiring;
    if k.PhraseKey? && Expiring(db, tenant, now, k.phrase) && k.phrase in db.phrases
        && db.phrases[k.phrase].key == Some(k) {
      ExpiringPhraseOwns(db, cfg, tenant, now, k.phrase);
    } else {
      hide Held;
      HeldStays(k, db, after);
    }
  }

  lemma ExpireRawAudioInv(db: Db, cfg: Settings, tenant: Id, now: Time)
    requires Inv(db, cfg) && cfg.retryLimit >= 1
    ensures Inv(ExpireRawAudio(db, tenant, now).db, cfg)
  {
    hide AssetsOk, ManifestsOk, SessionsOk, PhrasesOk, ScoresOk, EvidenceOk, SongsOk, DeletionsOk, Held, ExpireRawAudio;
    hide SongsUnique, ManifestsUnique, PhrasesUnique, ScoresUnique;
    var after := ExpireRawAudio(db, tenant, now).db;
    ExpiryIsChange(db, cfg, tenant, now);
    ExpiredPhrasesOk(db, cfg, after, tenant, now);
    PhrasesReferOthers(db, cfg, after.phrases);
    ExpiredDeletionsOk(db, cfg, after, tenant, now);
    forall k | k in db.store
      ensures Held(k, after.songs, after.assets, after.phrases, after.tasks)
    {
      ExpiryHeld(db, cfg, after, tenant, now, k);
    }
  }

  // ----- Processing deletions ------------------------------------------------------------------------

  // The key of an unfinished task belongs to no live song or asset.
  lemma OpenTaskKeyIsDead(db: Db, cfg: Settings, i: TaskId)
    requires Inv(db, cfg) && i in db.tasks && db.tasks[i].status != Completed && db.tasks[i].key.Some?
    ensures i.key == db.tasks[i].key
    ensures forall s :: s in db.songs ==> db.songs[s].key != i.key
    ensures forall a :: a in db.assets ==> db.assets[a].key != i.key
  {
    hide UniqueOk, ObjectsOk, OutcomesOk, ScoresOk, EvidenceOk, PhrasesOk, SessionsOk, ManifestsOk;
    assert TaskOk(i, db.tasks[i], db.requests, cfg.retryLimit) && TaskKeyOk(i, db.requests, db.phrases, db.next);
    assert RequestOk(i.request, db.requests[i.request], db.songs, db.next);
    forall s | s in db.songs
      ensures db.songs[s].key != i.key
    {
      assert SongOk(s, db.songs[s], db.next);
    }
    forall a | a in db.assets
      ensures db.assets[a].key != i.key
    {
      assert AssetOk(a, db.assets[a], db.songs, db.next);
    }
  }

  lemma RemovedKeysAreDead(db: Db, cfg: Settings, tenant: Id, now: Time, due: set<TaskId>, fate: TaskId -> Fate)
    requires Inv(db, cfg) && due <= DueTasks(db, tenant, now)
    ensures forall s :: s in db.songs && db.songs[s].key.Some? ==>
              db.songs[s].key.value !in RemovedKeys(db.tasks, due, fate)
    ensures forall a :: a in db.assets && db.assets[a].key.Some? ==>
              db.assets[a].key.value !in RemovedKeys(db.tasks, due, fate)
  {
    hide Inv;
    forall i | i in due && i in db.tasks && db.tasks[i].key.Some?
      ensures forall s :: s in db.songs ==> db.songs[s].key != db.tasks[i].key
      ensures forall a :: a in db.assets ==> db.assets[a].key != db.tasks[i].key
    {
      OpenTaskKeyIsDead(db, cfg, i);
    }
  }

  // Losing objects that belong to no live row.
  lemma RemovalInv(db: Db, cfg: Settings, removed: set<Key>)
    requires Inv(db, cfg)
    requires forall s :: s in db.songs && db.songs[s].key.Some? ==> db.songs[s].key.value !in removed
    requires forall a :: a in db.assets && db.assets[a].key.Some? ==> db.assets[a].key.value !in removed
    ensures Inv(db.(store := db.store - removed), cfg)
  {
    hide AssetsOk, ManifestsOk, SessionsOk, PhrasesOk, ScoresOk, SongsOk, RequestsOk, TasksOk, OutcomesOk, Held;
    hide SongsUnique, ManifestsUnique, PhrasesUnique, ScoresUnique;
    RemovalKeepsEvidence(db.scores, db.assets, db.store, removed);
  }

  lemma RemovalKeepsEvidence(scores: Scores, assets: Assets, store: Store, removed: set<Key>)
    requires EvidenceOk(scores, assets, store)
    requires forall a :: a in assets && assets[a].key.Some? ==> assets[a].key.value !in removed
    ensures EvidenceOk(scores, assets, store - removed)
  {
    forall tenant, doc, kind, digest | Backed(assets, store, tenant, doc, kind, digest)
      ensures Backed(assets, store - removed, tenant, doc, kind, digest)
    {
      var a :| a in assets && EvidenceMatches(assets[a], tenant, doc, kind, digest.value)
               && assets[a].state == Stored && assets[a].key.Some? && assets[a].key.value in store;
      assert assets[a].key.value in store - removed;
    }
  }

  lemma ProcessInterruptedInv(db: Db, cfg: Settings, tenant: Id, now: Time, attempted: set<TaskId>,
                              fate: TaskId -> Fate)
    requires Inv(db, cfg)
    ensures Inv(ProcessInterrupted(db, tenant, now, attempted, fate).db, cfg)
  {
    hide Inv, DueTasks, RemovedKeys;
    var due := attempted * DueTasks(db, tenant, now);
    RemovedKeysAreDead(db, cfg, tenant, now, due, fate);
    RemovalInv(db, cfg, RemovedKeys(db.tasks, due, fate));
  }

  // ----- Rows of purged songs ---------------------------------------------------------------------------

  // Everything of the songs in `gone` is removed, and nothing else.
  ghost predicate Restricted(db: Db, after: Db, gone: set<Id>) {
    && after.next == db.next && after.store == db.store
    && (forall s :: s in after.songs <==> s in db.songs && s !in gone)
    && (forall s :: s in after.songs ==> after.songs[s] == db.songs[s])
    && (forall a :: a in after.assets <==> a in db.assets && db.assets[a].song !in gone)
    && (forall a :: a in after.assets ==> after.assets[a] == db.assets[a])
    && (forall m :: m in after.manifests <==> m in db.manifests && db.manifests[m].song !in gone)
    && (forall m :: m in after.manifests ==> after.manifests[m] == db.manifests[m])
    && (forall n :: n in after.sessions <==> n in db.sessions && db.sessions[n].song !in gone)
    && (forall n :: n in after.sessions ==> after.sessions[n] == db.sessions[n])
    && (forall p :: p in after.phrases <==> p in db.phrases && db.phrases[p].song !in gone)
    && (forall p :: p in after.phrases ==> after.phrases[p] == db.phrases[p])
    && (forall c :: c in after.scores <==> c in db.scores && db.scores[c].song !in gone)
    && (forall c :: c in after.scores ==> after.scores[c] == db.scores[c])
  }

  lemma RestrictedSongs(db: Db, after: Db, gone: set<Id>)
    requires RowsOk(db) && Restricted(db, after, gone)
    ensures SongsOk(after.songs, after.next) && AssetsOk(after.assets, after.songs, after.next)
    ensures ManifestsOk(after.manifests, after.songs, after.next)
  {
    hide SessionsOk, PhrasesOk, ScoresOk, EvidenceOk;
    forall s | s in after.songs
      ensures SongOk(s, after.songs[s], after.next)
    {
      assert SongOk(s, db.songs[s], db.next);
    }
    forall a | a in after.assets
      ensures AssetOk(a, after.assets[a], after.songs, after.next)
    {
      assert AssetOk(a, db.assets[a], db.songs, db.next);
    }
    forall m | m in after.manifests
      ensures ManifestOk(m, after.manifests[m], after.songs, after.next)
    {
      assert ManifestOk(m, db.manifests[m], db.songs, db.next);
    }
  }

  lemma RestrictedSessions(db: Db, after: Db, gone: set<Id>)
    requires RowsOk(db) && Restricted(db, after, gone)
    ensures SessionsOk(after.sessions, after.manifests, after.songs, after.next)
  {
    hide SongsOk, AssetsOk, ManifestsOk, ScoresOk, EvidenceOk, PhrasesOk;
    forall n | n in after.sessions
      ensures SessionOk(n, after.sessions[n], after.manifests, after.songs, after.next)
    {
      assert SessionOk(n, db.sessions[n], db.manifests, db.songs, db.next);
    }
  }

  lemma RestrictedPhrases(db: Db, after: Db, gone: set<Id>)
    requires RowsOk(db) && Restricted(db, after, gone)
    ensures PhrasesOk(after.phrases, after.sessions, after.songs)
  {
    hide SongsOk, AssetsOk, ManifestsOk, ScoresOk, EvidenceOk, SessionsOk;
    forall p | p in after.phrases
      ensures PhraseOk(p, after.phrases[p], after.sessions, after.songs)
    {
      assert PhraseOk(p, db.phrases[p], db.sessions, db.songs);
    }
  }

  lemma RestrictedScores(db: Db, after: Db, gone: set<Id>)
    requires RowsOk(db) && Restricted(db, after, gone)
    ensures ScoresOk(after.scores, after.phrases, after.sessions, after.manifests, after.songs, after.next)
  {
    hide SongsOk, AssetsOk, ManifestsOk, SessionsOk, PhrasesOk, EvidenceOk;
    forall c | c in after.scores
      ensures ScoreOk(c, after.scores[c], after.phrases, after.sessions, after.manifests, after.songs, after.next)
    {
      assert ScoreOk(c, db.scores[c], db.phrases, db.sessions, db.manifests, db.songs, db.next);
    }
  }

  lemma RestrictedEvidence(db: Db, after: Db, gone: set<Id>)
    requires RowsOk(db) && Restricted(db, after, gone)
    ensures EvidenceOk(after.scores, after.assets, after.store)
  {
    hide SongsOk, AssetsOk, ManifestsOk, SessionsOk, PhrasesOk;
    forall c | c in after.scores && after.scores[c].deletedAt.None? && after.scores[c].doc.Some?
      ensures var row := after.scores[c];
              && Backed(after.assets, after.store, row.tenant, row.doc.value, Transport, row.doc.value.transport)
              && Backed(after.assets, after.store, row.tenant, row.doc.value, UserFeatures, row.doc.value.userFeatures)
    {
      var row := db.scores[c];
      assert ScoreOk(c, row, db.phrases, db.sessions, db.manifests, db.songs, db.next);
      RestrictedBacked(db, after, gone, row.tenant, row.doc.value, Transport, row.doc.value.transport);
      RestrictedBacked(db, after, gone, row.tenant, row.doc.value, UserFeatures, row.doc.value.userFeatures);
    }
  }

  lemma RestrictedBacked(db: Db, after: Db, gone: set<Id>, t: Id, doc: ScoreDoc, kind: AssetKind, digest: Option<Blob>)
    requires Restricted(db, after, gone) && Backed(db.assets, db.store, t, doc, kind, digest) && doc.song !in gone
    ensures Backed(after.assets, after.store, t, doc, kind, digest)
  {
    var a :| a in db.assets && EvidenceMatches(db.assets[a], t, doc, kind, digest.value)
             && db.assets[a].state == Stored && db.assets[a].key.Some? && db.assets[a].key.value in db.store;
    assert a in after.assets;
  }

  lemma RestrictedInv(db: Db, after: Db, gone: set<Id>)
    requires RowsOk(db) && UniqueOk(db) && Restricted(db, after, gone)
    ensures RowsOk(after) && UniqueOk(after)
  {
    RestrictedUnique(db, after, gone);
    hide SongsOk, AssetsOk, ManifestsOk, SessionsOk, PhrasesOk, ScoresOk, EvidenceOk, UniqueOk, Restricted;
    RestrictedSongs(db, after, gone);
    RestrictedSessions(db, after, gone);
    RestrictedPhrases(db, after, gone);
    RestrictedScores(db, after, gone);
    RestrictedEvidence(db, after, gone);
  }

  lemma RestrictedUnique(db: Db, after: Db, gone: set<Id>)
    requires UniqueOk(db) && Restricted(db, after, gone)
    ensures UniqueOk(after)
  {
  }

  // ----- Recording the results --------------------------------------------------------------------------

  ghost predicate TaskMoved(row: Task, row': Task, limit: nat, i: TaskId, tenant: Id, now: Time) {
    || row' == row
    || (Due(i, row, tenant, now)
        && (row' == Attempt(row, Removed, now, limit) || row' == Attempt(row, RaisedKept, now, limit)))
  }

  // The pass once its deletes have happened: `db` already lacks the removed objects.
  ghost predicate Recorded(db: Db, after: Db, cfg: Settings, tenant: Id, now: Time) {
    && after.tasks.Keys == db.tasks.Keys && after.requests.Keys == db.requests.Keys
    && (forall i :: i in db.tasks ==> TaskMoved(db.tasks[i], after.tasks[i], cfg.retryLimit, i, tenant, now))
    && (forall r :: r in db.requests ==> after.requests[r] == Settle(r, db.requests[r], after.tasks, tenant, now))
    && Restricted(db, after, set s | s in db.songs && Purging(db, after.tasks, tenant, s))
    && (forall i :: i in db.tasks && db.tasks[i].key.Some? && after.tasks[i].status == Completed ==>
        db.tasks[i].key.value !in db.store)
  }

  lemma PurgingSong(db: Db, cfg: Settings, tasks: Tasks, tenant: Id, s: Id)
    requires Inv(db, cfg) && Purging(db, tasks, tenant, s)
    ensures s in db.songs && db.songs[s].tenant == tenant && db.songs[s].deletedAt.Some?
  {
    hide RowsOk, UniqueOk, ObjectsOk, TasksOk, OutcomesOk, AllCompleted;
    assert RequestOk(RequestId(tenant, SongResource, s), db.requests[RequestId(tenant, SongResource, s)], db.songs,
                     db.next);
  }

  lemma RecordedRequest(db: Db, after: Db, cfg: Settings, tenant: Id, now: Time, r: RequestId)
    requires Inv(db, cfg) && Recorded(db, after, cfg, tenant, now) && r in after.requests
    ensures RequestOk(r, after.requests[r], after.songs, after.next)
    ensures r.kind == SongResource && after.requests[r].status != Completed ==>
              !Purging(db, after.tasks, tenant, r.resource)
  {
    hide RowsOk, UniqueOk, ObjectsOk, TasksOk, OutcomesOk, AllCompleted, SomeFailed, TaskMoved;
    assert RequestOk(r, db.requests[r], db.songs, db.next);
    if Purging(db, after.tasks, tenant, r.resource) {
      PurgingSong(db, cfg, after.tasks, tenant, r.resource);
    }
  }

  lemma RecordedTask(db: Db, after: Db, cfg: Settings, tenant: Id, now: Time, i: TaskId)
    requires Inv(db, cfg) && Recorded(db, after, cfg, tenant, now) && i in after.tasks
    ensures TaskOk(i, after.tasks[i], after.requests, cfg.retryLimit)
  {
    hide RowsOk, UniqueOk, ObjectsOk, OutcomesOk, RequestsOk, Purging, TaskKeyOk, Restricted;
    assert TaskOk(i, db.tasks[i], db.requests, cfg.retryLimit);
    assert TaskMoved(db.tasks[i], after.tasks[i], cfg.retryLimit, i, tenant, now);
  }

  lemma RecordedTaskKey(db: Db, after: Db, cfg: Settings, tenant: Id, now: Time, i: TaskId)
    requires Inv(db, cfg) && Recorded(db, after, cfg, tenant, now) && i in after.tasks
    ensures TaskKeyOk(i, after.requests, after.phrases, after.next)
  {
    hide RowsOk, UniqueOk, ObjectsOk, OutcomesOk, RequestsOk, Purging, TaskOk, TaskMoved;
    assert TaskKeyOk(i, db.requests, db.phrases, db.next);
    RecordedRequestLives(db, cfg, i);
    RecordedRequest(db, after, cfg, tenant, now, i.request);
  }

  lemma RecordedRequestLives(db: Db, cfg: Settings, i: TaskId)
    requires Inv(db, cfg) && i in db.tasks
    ensures i.request in db.requests
  {
    hide RowsOk, UniqueOk, ObjectsOk, OutcomesOk, RequestsOk, TaskKeyOk;
    assert TaskOk(i, db.tasks[i], db.requests, cfg.retryLimit);
  }

  lemma RecordedOutcome(db: Db, after: Db, cfg: Settings, tenant: Id, now: Time, r: RequestId)
    requires Inv(db, cfg) && Recorded(db, after, cfg, tenant, now) && r in after.requests
    ensures after.requests[r].status == Failed ==> SomeFailed(after.tasks, r)
    ensures r.kind == SongResource || after.requests[r].status == Waiting ==> HasTask(after.tasks, r)
  {
    hide RowsOk, UniqueOk, ObjectsOk, RequestsOk, TasksOk, Restricted, Purging;
    if db.requests[r].status == Failed {
      var i :| i in db.tasks && i.request == r && db.tasks[i].status == Failed;
      assert TaskMoved(db.tasks[i], after.tasks[i], cfg.retryLimit, i, tenant, now);
      assert after.tasks[i].status == Failed;
    }
    if HasTask(db.tasks, r) {
      var i :| i in db.tasks && i.request == r;
      assert i in after.tasks;
    }
  }

  lemma RecordedSongs(db: Db, after: Db, cfg: Settings, tenant: Id, now: Time)
    requires Inv(db, cfg) && Recorded(db, after, cfg, tenant, now)
    ensures forall s :: s in after.songs && after.songs[s].deletedAt.Some? ==>
              RequestId(after.songs[s].tenant, SongResource, s) in after.requests
  {
    hide RowsOk, UniqueOk, ObjectsOk, TasksOk, OutcomesOk, TaskMoved, Purging, RequestOk, Settle;
  }

  lemma RecordedDeletions(db: Db, after: Db, cfg: Settings, tenant: Id, now: Time)
    requires Inv(db, cfg) && Recorded(db, after, cfg, tenant, now)
    ensures DeletionsOk(after, cfg)
  {
    hide Inv, Recorded, TaskOk, TaskKeyOk, RequestOk, HasTask, SomeFailed;
    RecordedSongs(db, after, cfg, tenant, now);
    forall i | i in after.tasks
      ensures TaskOk(i, after.tasks[i], after.requests, cfg.retryLimit)
              && TaskKeyOk(i, after.requests, after.phrases, after.next)
    {
      RecordedTask(db, after, cfg, tenant, now, i);
      RecordedTaskKey(db, after, cfg, tenant, now, i);
    }
    forall r | r in after.requests
      ensures RequestOk(r, after.requests[r], after.songs, after.next)
      ensures after.requests[r].status == Failed ==> SomeFailed(after.tasks, r)
      ensures r.kind == SongResource || after.requests[r].status == Waiting ==> HasTask(after.tasks, r)
    {
      RecordedRequest(db, after, cfg, tenant, now, r);
      RecordedOutcome(db, after, cfg, tenant, now, r);
    }
  }

  lemma RecordedOpen(db: Db, after: Db, cfg: Settings, tenant: Id, now: Time, q: RequestId, k: Key)
    requires Inv(db, cfg) && Recorded(db, after, cfg, tenant, now) && k in db.store && OpenTask(db.tasks, q, k)
    ensures OpenTask(after.tasks, q, k) && !AllCompleted(after.tasks, q)
  {
    hide RowsOk, UniqueOk, ObjectsOk, RequestsOk, OutcomesOk, Restricted, Purging;
    var i := TaskId(q, Some(k));
    assert TaskOk(i, db.tasks[i], db.requests, cfg.retryLimit);
  }

  lemma PurgingOwnsNothing(db: Db, cfg: Settings, tasks: Tasks, tenant: Id, s: Id)
    requires Inv(db, cfg) && Purging(db, tasks, tenant, s)
    ensures s in db.songs && db.songs[s].tenant == tenant && db.songs[s].key.None?
    ensures forall a :: a in db.assets && db.assets[a].song == s ==> db.assets[a].key.None?
    ensures forall p :: p in db.phrases && db.phrases[p].song == s ==>
              db.phrases[p].key.None? && db.phrases[p].tenant == tenant
  {
    hide UniqueOk, ObjectsOk, DeletionsOk, ManifestsOk, SessionsOk, ScoresOk, EvidenceOk, Purging;
    PurgingSong(db, cfg, tasks, tenant, s);
    assert SongOk(s, db.songs[s], db.next);
    forall a | a in db.assets && db.assets[a].song == s
      ensures db.assets[a].key.None?
    {
      assert AssetOk(a, db.assets[a], db.songs, db.next);
    }
    forall p | p in db.phrases && db.phrases[p].song == s
      ensures db.phrases[p].key.None? && db.phrases[p].tenant == tenant
    {
      assert PhraseOk(p, db.phrases[p], db.sessions, db.songs);
    }
  }

  lemma RecordedKeeps(db: Db, after: Db, cfg: Settings, tenant: Id, now: Time)
    requires Recorded(db, after, cfg, tenant, now)
    ensures forall s :: s in db.songs && !Purging(db, after.tasks, tenant, s) ==>
              s in after.songs && after.songs[s] == db.songs[s]
    ensures forall a :: a in db.assets && !Purging(db, after.tasks, tenant, db.assets[a].song) ==>
              a in after.assets && after.assets[a] == db.assets[a]
    ensures forall p :: p in db.phrases && !Purging(db, after.tasks, tenant, db.phrases[p].song) ==>
              p in after.phrases && after.phrases[p] == db.phrases[p]
  {
    hide Purging, TaskMoved, Settle;
  }

  lemma RecordedHeld(db: Db, after: Db, cfg: Settings, tenant: Id, now: Time, k: Key)
    requires Inv(db, cfg) && Recorded(db, after, cfg, tenant, now) && k in db.store
    requires Held(k, db.songs, db.assets, db.phrases, db.tasks)
    ensures Held(k, after.songs, after.assets, after.phrases, after.tasks)
  {
    hide Inv, AllCompleted, TaskMoved, OpenTask, Settle, Held, Recorded;
    RecordedKeeps(db, after, cfg, tenant, now);
    forall q | OpenTask(db.tasks, q, k)
      ensures OpenTask(after.tasks, q, k) && !AllCompleted(after.tasks, q)
    {
      RecordedOpen(db, after, cfg, tenant, now, q, k);
    }
    forall s | Purging(db, after.tasks, tenant, s)
      ensures s in db.songs && db.songs[s].tenant == tenant && db.songs[s].key.None?
      ensures forall a :: a in db.assets && db.assets[a].song == s ==> db.assets[a].key.None?
      ensures forall p :: p in db.phrases && db.phrases[p].song == s ==>
                db.phrases[p].key.None? && db.phrases[p].tenant == tenant
    {
      PurgingOwnsNothing(db, cfg, after.tasks, tenant, s);
    }
    HeldStays(k, db, after);
  }

  lemma RestrictedStored(db: Db, after: Db, gone: set<Id>)
    requires StoredOk(db.store, db.songs, db.assets) && Restricted(db, after, gone)
    ensures StoredOk(after.store, after.songs, after.assets) && after.store == db.store
  {
  }

  lemma RecordedInv(db: Db, after: Db, cfg: Settings, tenant: Id, now: Time)
    requires Inv(db, cfg) && Recorded(db, after, cfg, tenant, now)
    ensures Inv(after, cfg)
  {
    hide RowsOk, UniqueOk, DeletionsOk, Held, TaskMoved, Purging, Settle, Restricted, StoredOk;
    var gone := set s | s in db.songs && Purging(db, after.tasks, tenant, s);
    RecordedDeletions(db, after, cfg, tenant, now);
    RestrictedInv(db, after, gone);
    RestrictedStored(db, after, gone);
    forall k | k in after.store
      ensures Held(k, after.songs, after.assets, after.phrases, after.tasks)
    {
      RecordedHeld(db, after, cfg, tenant, now, k);
    }
  }

  // ----- The whole pass --------------------------------------------------------------------------------

  // Under the invariant a purge takes exactly the rows of the purged songs.
  lemma PurgedIsOfSong(db: Db, cfg: Settings, tasks: Tasks, tenant: Id, rowTenant: Id, deletedAt: Option<Time>, s: Id)
    requires Inv(db, cfg) && OfSong(db.songs, rowTenant, s, deletedAt)
    ensures Purged(db, tasks, tenant, rowTenant, s) <==> Purging(db, tasks, tenant, s)
  {
    hide Inv, Purging;
    if Purging(db, tasks, tenant, s) {
      PurgingSong(db, cfg, tasks, tenant, s);
    }
  }

  lemma ChildrenOfSongs(db: Db, cfg: Settings)
    requires Inv(db, cfg)
    ensures forall a :: a in db.assets ==>
              OfSong(db.songs, db.assets[a].tenant, db.assets[a].song, db.assets[a].deletedAt)
    ensures forall m :: m in db.manifests ==>
              OfSong(db.songs, db.manifests[m].tenant, db.manifests[m].song, db.manifests[m].deletedAt)
    ensures forall n :: n in db.sessions ==>
              OfSong(db.songs, db.sessions[n].tenant, db.sessions[n].song, db.sessions[n].deletedAt)
    ensures forall p :: p in db.phrases ==>
              OfSong(db.songs, db.phrases[p].tenant, db.phrases[p].song, db.phrases[p].deletedAt)
    ensures forall c :: c in db.scores ==>
              OfSong(db.songs, db.scores[c].tenant, db.scores[c].song, db.scores[c].deletedAt)
  {
    hide UniqueOk, ObjectsOk, DeletionsOk, EvidenceOk, OfSong;
    assert forall a :: a in db.assets ==> AssetOk(a, db.assets[a], db.songs, db.next);
    assert forall m :: m in db.manifests ==> ManifestOk(m, db.manifests[m], db.songs, db.next);
    assert forall n :: n in db.sessions ==> SessionOk(n, db.sessions[n], db.manifests, db.songs, db.next);
    assert forall p :: p in db.phrases ==> PhraseOk(p, db.phrases[p], db.sessions, db.songs);
    assert forall c :: c in db.scores ==>
           ScoreOk(c, db.scores[c], db.phrases, db.sessions, db.manifests, db.songs, db.next);
  }

  // Which rows the pass keeps, as the source's DELETE statements select them.
  ghost predicate PassKeeps(db: Db, after: Db, tenant: Id) {
    && (forall s :: s in after.songs <==> s in db.songs && !Purged(db, after.tasks, tenant, db.songs[s].tenant, s))
    && (forall s :: s in after.songs ==> after.songs[s] == db.songs[s])
    && (forall a :: a in after.assets <==>
        a in db.assets && !Purged(db, after.tasks, tenant, db.assets[a].tenant, db.assets[a].song))
    && (forall a :: a in after.assets ==> after.assets[a] == db.assets[a])
    && (forall m :: m in after.manifests <==>
        m in db.manifests && !Purged(db, after.tasks, tenant, db.manifests[m].tenant, db.manifests[m].song))
    && (forall m :: m in after.manifests ==> after.manifests[m] == db.manifests[m])
    && (forall n :: n in after.sessions <==>
        n in db.sessions && !Purged(db, after.tasks, tenant, db.sessions[n].tenant, db.sessions[n].song))
    && (forall n :: n in after.sessions ==> after.sessions[n] == db.sessions[n])
    && (forall p :: p in after.phrases <==>
        p in db.phrases && !Purged(db, after.tasks, tenant, db.phrases[p].tenant, db.phrases[p].song))
    && (forall p :: p in after.phrases ==> after.phrases[p] == db.phrases[p])
    && (forall c :: c in after.scores <==>
        c in db.scores && !Purged(db, after.tasks, tenant, db.scores[c].tenant, db.scores[c].song))
    && (forall c :: c in after.scores ==> after.scores[c] == db.scores[c])
  }

  lemma PassIsKeeps(db: Db, cfg: Settings, tenant: Id, now: Time, fate: TaskId -> Fate)
    ensures var after := ProcessDeletions(db, cfg, tenant, now, fate).db;
            PassKeeps(db, after, tenant) && after.next == db.next
  {
    hide Purged, AttemptAll, DueTasks, RemovedKeys, Settle;
  }

  // Under the invariant those are exactly the rows of purged songs.
  lemma PurgedAreGone(db: Db, cfg: Settings, tasks: Tasks, tenant: Id, gone: set<Id>)
    requires Inv(db, cfg) && gone == set s | s in db.songs && Purging(db, tasks, tenant, s)
    ensures forall s :: s in db.songs ==> (Purged(db, tasks, tenant, db.songs[s].tenant, s) <==> s in gone)
    ensures forall a :: a in db.assets ==>
              (Purged(db, tasks, tenant, db.assets[a].tenant, db.assets[a].song) <==> db.assets[a].song in gone)
    ensures forall m :: m in db.manifests ==>
              (Purged(db, tasks, tenant, db.manifests[m].tenant, db.manifests[m].song) <==>
               db.manifests[m].song in gone)
    ensures forall n :: n in db.sessions ==>
              (Purged(db, tasks, tenant, db.sessions[n].tenant, db.sessions[n].song) <==> db.sessions[n].song in gone)
    ensures forall p :: p in db.phrases ==>
              (Purged(db, tasks, tenant, db.phrases[p].tenant, db.phrases[p].song) <==> db.phrases[p].song in gone)
    ensures forall c :: c in db.scores ==>
              (Purged(db, tasks, tenant, db.scores[c].tenant, db.scores[c].song) <==> db.scores[c].song in gone)
  {
    hide Inv, Purging, Purged, OfSong;
    ChildrenOfSongs(db, cfg);
    forall t, s, d | OfSong(db.songs, t, s, d)
      ensures Purged(db, tasks, tenant, t, s) <==> s in gone
    {
      SongOfSong(db, t, s, d);
      PurgedIsOfSong(db, cfg, tasks, tenant, t, d, s);
    }
    forall s | s in db.songs
      ensures OfSong(db.songs, db.songs[s].tenant, s, db.songs[s].deletedAt)
    {
      SongOfItself(db, s);
    }
  }

  lemma KeepsRestricts(db: Db, after: Db, tenant: Id, gone: set<Id>)
    requires PassKeeps(db, after, tenant) && after.next == db.next
    requires forall s :: s in db.songs ==> (Purged(db, after.tasks, tenant, db.songs[s].tenant, s) <==> s in gone)
    requires forall a :: a in db.assets ==>
               (Purged(db, after.tasks, tenant, db.assets[a].tenant, db.assets[a].song) <==> db.assets[a].song in gone)
    requires forall m :: m in db.manifests ==>
               (Purged(db, after.tasks, tenant, db.manifests[m].tenant, db.manifests[m].song) <==>
                db.manifests[m].song in gone)
    requires forall n :: n in db.sessions ==>
               (Purged(db, after.tasks, tenant, db.sessions[n].tenant, db.sessions[n].song) <==>
                db.sessions[n].song in gone)
    requires forall p :: p in db.phrases ==>
               (Purged(db, after.tasks, tenant, db.phrases[p].tenant, db.phrases[p].song) <==>
                db.phrases[p].song in gone)
    requires forall c :: c in db.scores ==>
               (Purged(db, after.tasks, tenant, db.scores[c].tenant, db.scores[c].song) <==> db.scores[c].song in gone)
    ensures Restricted(db.(store := after.store), after, gone)
  {
    hide Purged;
  }

  lemma PassRestricts(db: Db, cfg: Settings, tenant: Id, now: Time, fate: TaskId -> Fate)
    requires Inv(db, cfg)
    ensures var after := ProcessDeletions(db, cfg, tenant, now, fate).db;
            Restricted(db.(store := after.store), after, set s | s in db.songs && Purging(db, after.tasks, tenant, s))
  {
    hide Inv, Purging, Purged, Restricted, PassKeeps, ProcessDeletions;
    var after := ProcessDeletions(db, cfg, tenant, now, fate).db;
    var gone := set s | s in db.songs && Purging(db, after.tasks, tenant, s);
    PassIsKeeps(db, cfg, tenant, now, fate);
    PurgedAreGone(db, cfg, after.tasks, tenant, gone);
    KeepsRestricts(db, after, tenant, gone);
  }

  lemma SongOfSong(db: Db, t: Id, s: Id, d: Option<Time>)
    requires OfSong(db.songs, t, s, d)
    ensures s in db.songs
  {
  }

  lemma SongOfItself(db: Db, s: Id)
    requires s in db.songs
    ensures OfSong(db.songs, db.songs[s].tenant, s, db.songs[s].deletedAt)
  {
  }

  lemma PassMoves(db: Db, cfg: Settings, tenant: Id, now: Time, fate: TaskId -> Fate)
    ensures var after := ProcessDeletions(db, cfg, tenant, now, fate).db;
            && after.store == db.store - RemovedKeys(db.tasks, DueTasks(db, tenant, now), fate)
            && after.tasks.Keys == db.tasks.Keys && after.requests.Keys == db.requests.Keys
            && (forall i :: i in db.tasks ==> after.tasks[i] ==
                                              if Due(i, db.tasks[i], tenant, now) then
                                                Attempt(db.tasks[i], fate(i), now, cfg.retryLimit) else db.tasks[i])
            && (forall r :: r in db.requests ==>
                after.requests[r] == Settle(r, db.requests[r], after.tasks, tenant, now))
  {
    hide Purged, Settle, Attempt;
  }

  lemma CompletedKeysRemoved(db: Db, cfg: Settings, tenant: Id, now: Time, fate: TaskId -> Fate, i: TaskId)
    requires Inv(db, cfg) && i in db.tasks && db.tasks[i].key.Some?
    requires ProcessDeletions(db, cfg, tenant, now, fate).db.tasks.Keys == db.tasks.Keys
    requires ProcessDeletions(db, cfg, tenant, now, fate).db.tasks[i].status == Completed
    ensures db.tasks[i].key.value in RemovedKeys(db.tasks, DueTasks(db, tenant, now), fate)
  {
    hide RowsOk, UniqueOk, ObjectsOk, RequestsOk, OutcomesOk, ProcessDeletions;
    PassMoves(db, cfg, tenant, now, fate);
    assert TaskOk(i, db.tasks[i], db.requests, cfg.retryLimit);
  }

  lemma PassRecords(db: Db, cfg: Settings, tenant: Id, now: Time, fate: TaskId -> Fate)
    requires Inv(db, cfg)
    ensures var after := ProcessDeletions(db, cfg, tenant, now, fate).db;
            Recorded(db.(store := after.store), after, cfg, tenant, now)
  {
    hide Inv, ProcessDeletions, Settle, RemovedKeys, DueTasks, Restricted;
    var after := ProcessDeletions(db, cfg, tenant, now, fate).db;
    var removed := db.(store := after.store);
    PassMoves(db, cfg, tenant, now, fate);
    PassRestricts(db, cfg, tenant, now, fate);
    assert forall s :: Purging(db, after.tasks, tenant, s) <==> Purging(removed, after.tasks, tenant, s);
    assert (set s | s in db.songs && Purging(db, after.tasks, tenant, s)) ==
           (set s | s in removed.songs && Purging(removed, after.tasks, tenant, s));
    forall i | i in db.tasks && db.tasks[i].key.Some? && after.tasks[i].status == Completed
      ensures db.tasks[i].key.value !in after.store
    {
      CompletedKeysRemoved(db, cfg, tenant, now, fate, i);
    }
  }

  lemma ProcessDeletionsInv(db: Db, cfg: Settings, tenant: Id, now: Time, fate: TaskId -> Fate)
    requires Inv(db, cfg)
    ensures Inv(ProcessDeletions(db, cfg, tenant, now, fate).db, cfg)
  {
    hide Inv, ProcessDeletions, Recorded, RemovedKeys, DueTasks;
    var after := ProcessDeletions(db, cfg, tenant, now, fate).db;
    PassMoves(db, cfg, tenant, now, fate);
    RemovedKeysAreDead(db, cfg, tenant, now, DueTasks(db, tenant, now), fate);
    RemovalInv(db, cfg, RemovedKeys(db.tasks, DueTasks(db, tenant, now), fate));
    PassRecords(db, cfg, tenant, now, fate);
    RecordedInv(db.(store := after.store), after, cfg, tenant, now);
  }

  // ----- Every reachable state --------------------------------------------------------------------------

  lemma StepInv(db: Db, cfg: Settings, op: Op)
    requires Inv(db, cfg) && cfg.retryLimit >= 1
    ensures Inv(Apply(db, cfg, op), cfg)
  {
    hide Inv, CreateSong, UploadSource, ReserveAsset, UploadAsset, PublishManifest, CreateSession, ReservePhrase,
         UploadPhrase;
    hide WriteScore, RequestSongDeletion, ExpireRawAudio, ProcessDeletions, ProcessInterrupted;
    match op
    case OpCreateSong(t, sha, length, media) => CreateSongInv(db, cfg, t, sha, length, media);
    case OpUploadSource(t, s, payload, screening, now, commits) =>
      UploadSourceInv(db, cfg, t, s, payload, screening, now, commits);
    case OpReserveAsset(t, s, kind, sha, length, mediaType, release) =>
      ReserveAssetInv(db, cfg, t, s, kind, sha, length, mediaType, release);
    case OpUploadAsset(t, a, payload, now, commits) => UploadAssetInv(db, cfg, t, a, payload, now, commits);
    case OpPublishManifest(t, s, doc, now) => PublishManifestInv(db, cfg, t, s, doc, now);
    case OpCreateSession(t, s, m, calibration) => CreateSessionInv(db, cfg, t, s, m, calibration);
    case OpReservePhrase(t, doc, now) => ReservePhraseInv(db, cfg, t, doc, now);
    case OpUploadPhrase(t, p, payload, now, commits) => UploadPhraseInv(db, cfg, t, p, payload, now, commits);
    case OpWriteScore(t, doc, idem, m, now) => WriteScoreInv(db, cfg, t, doc, idem, m, now);
    case OpRequestSongDeletion(t, s, now) => RequestSongDeletionInv(db, cfg, t, s, now);
    case OpExpireRawAudio(t, now) => ExpireRawAudioInv(db, cfg, t, now);
    case OpProcessDeletions(t, now, fate) => ProcessDeletionsInv(db, cfg, t, now, fate);
    case OpProcessInterrupted(t, now, attempted, fate) => ProcessInterruptedInv(db, cfg, t, now, attempted, fate);
  }

  lemma {:induction false} RunInv(db: Db, cfg: Settings, ops: seq<Op>)
    requires Inv(db, cfg) && cfg.retryLimit >= 1
    ensures Inv(Run(db, cfg, ops), cfg)
    decreases |ops|
  {
    hide Inv, Apply;
    if ops != [] {
      RunInv(db, cfg, ops[..|ops| - 1]);
      StepInv(Run(db, cfg, ops[..|ops| - 1]), cfg, ops[|ops| - 1]);
    }
  }

  // No object is ever orphaned: whatever operations, failures and crashes have come
  // before, some row or unfinished deletion task answers for every stored key, and
  // the object is what the key's digest says.
  lemma NoOrphanedObject(cfg: Settings, ops: seq<Op>, k: Key)
    requires cfg.retryLimit >= 1 && k in Run(EMPTY, cfg, ops).store
    ensures var db := Run(EMPTY, cfg, ops);
            db.store[k] == k.sha && Held(k, db.songs, db.assets, db.phrases, db.tasks)
  {
    hide RowsOk, UniqueOk, DeletionsOk, Held, Run;
    assert Inv(EMPTY, cfg) by {
      EmptyInv(cfg);
    }
    RunInv(EMPTY, cfg, ops);
  }
}
