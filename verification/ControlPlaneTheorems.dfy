// What the invariant gives about deletion, retries, expiry and scores over whole runs.
module ControlPlaneTheorems {
  import opened ControlPlane
  import opened ControlPlaneInvariant
  import opened ControlPlaneDeletion
  import opened Options

  // ----- One step, seen from each table -------------------------------------------------

  // Tasks and requests are never forgotten, and a finished one never changes again.
  ghost predicate TasksPersist(db: Db, after: Db) {
    && (forall i :: i in db.tasks ==>
        i in after.tasks && (db.tasks[i].status != Waiting ==> after.tasks[i] == db.tasks[i]))
    && (forall r :: r in db.requests ==>
        r in after.requests && (db.requests[r].status != Waiting ==> after.requests[r] == db.requests[r]))
  }

  lemma RequestingPersists(db: Db, cfg: Settings, tenant: Id, s: Id, now: Time)
    requires Inv(db, cfg)
    ensures TasksPersist(db, RequestSongDeletion(db, tenant, s, now).db)
  {
    hide Inv, SongKeys, SongRowsErased, RequestSongDeletion, NewTasks, TaskIds;
    RequestSongDeletionResult(db, tenant, s, now);
    if RequestSongDeletion(db, tenant, s, now).answer.Created? {
      DeletionErases(db, tenant, s, now);
      NewTasksAreNew(db, cfg, tenant, s, now);
    }
  }

  lemma PassPersists(db: Db, cfg: Settings, tenant: Id, now: Time, fate: TaskId -> Fate)
    ensures TasksPersist(db, ProcessDeletions(db, cfg, tenant, now, fate).db)
  {
    hide ProcessDeletions, RemovedKeys;
    PassMoves(db, cfg, tenant, now, fate);
  }

  ghost predicate ConcernsDeletion(op: Op) {
    op.OpRequestSongDeletion? || op.OpExpireRawAudio? || op.OpProcessDeletions? || op.OpProcessInterrupted?
  }

  ghost predicate TasksKept(db: Db, after: Db) {
    after.tasks == db.tasks && after.requests == db.requests
  }

  lemma SourceKeepsTasks(db: Db, cfg: Settings, tenant: Id, s: Id, payload: Blob, screening: Screening, now: Time,
                         commits: bool)
    ensures TasksKept(db, UploadSource(db, cfg, tenant, s, payload, screening, now, commits).db)
  {
    hide PayloadFits, PutRefused;
  }

  lemma AssetKeepsTasks(db: Db, cfg: Settings, tenant: Id, a: Id, payload: Blob, now: Time, commits: bool)
    ensures TasksKept(db, UploadAsset(db, cfg, tenant, a, payload, now, commits).db)
  {
    hide PayloadFits, PutRefused;
  }

  lemma PhraseKeepsTasks(db: Db, cfg: Settings, tenant: Id, p: Id, payload: Blob, now: Time, commits: bool)
    ensures TasksKept(db, UploadPhrase(db, cfg, tenant, p, payload, now, commits).db)
  {
    hide PayloadFits, PutRefused;
  }

  lemma SessionKeepsTasks(db: Db, tenant: Id, s: Id, m: Id, calibration: Version)
    ensures TasksKept(db, CreateSession(db, tenant, s, m, calibration).db)
  {
  }

  lemma OtherOpsKeepTasks(db: Db, cfg: Settings, op: Op)
    requires !ConcernsDeletion(op)
    ensures TasksKept(db, Apply(db, cfg, op))
  {
    hide RequestSongDeletion, ExpireRawAudio, ProcessDeletions, ProcessInterrupted;
    hide CreateSong, ReserveAsset, PublishManifest, ReservePhrase, WriteScore, UploadSource, UploadAsset,
         UploadPhrase, CreateSession;
    match op
    case OpCreateSong(t, sha, length, media) => CreateSongResult(db, t, sha, length, media);
    case OpReserveAsset(t, q, kind, sha, length, mediaType, release) =>
      ReserveAssetResult(db, t, q, kind, sha, length, mediaType, release);
    case OpPublishManifest(t, q, doc, now) => PublishManifestResult(db, t, q, doc, now);
    case OpReservePhrase(t, doc, now) => ReservePhraseResult(db, cfg, t, doc, now);
    case OpWriteScore(t, doc, idem, m, now) => WriteScoreResult(db, t, doc, idem, m, now);
    case OpUploadSource(t, i, payload, screening, now, commits) =>
      SourceKeepsTasks(db, cfg, t, i, payload, screening, now, commits);
    case OpUploadAsset(t, i, payload, now, commits) => AssetKeepsTasks(db, cfg, t, i, payload, now, commits);
    case OpUploadPhrase(t, i, payload, now, commits) => PhraseKeepsTasks(db, cfg, t, i, payload, now, commits);
    case OpCreateSession(t, q, m, calibration) => SessionKeepsTasks(db, t, q, m, calibration);
  }

  // COMPLETED and FAILED are final for tasks and for requests, whatever the operation.
  lemma FinishedIsFinal(db: Db, cfg: Settings, op: Op)
    requires Inv(db, cfg)
    ensures TasksPersist(db, Apply(db, cfg, op))
  {
    hide Inv, RequestSongDeletion, ExpireRawAudio, ProcessDeletions, CreateSong, UploadSource, ReserveAsset,
         UploadAsset;
    hide PublishManifest, CreateSession, ReservePhrase, UploadPhrase, WriteScore;
    match op
    case OpRequestSongDeletion(t, s, now) => RequestingPersists(db, cfg, t, s, now);
    case OpExpireRawAudio(t, now) => ExpiryIsChange(db, cfg, t, now);
    case OpProcessDeletions(t, now, fate) => PassPersists(db, cfg, t, now, fate);
    case OpProcessInterrupted(_, _, _, _) =>
    case _ => OtherOpsKeepTasks(db, cfg, op);
  }

  // ----- Objects of a song being deleted stay deleted --------------------------------------

  // While a song's deletion is unfinished, a key whose task has completed is not in
  // the store.
  ghost predicate GoneOk(db: Db) {
    forall i :: i in db.tasks && i.request.kind == SongResource && i.key.Some? && i.request in db.requests
                && db.requests[i.request].status != Completed && db.tasks[i].status == Completed
      ==> i.key.value !in db.store
  }

  // No unerased row owns the key of an unfinished song deletion's task, completed or not.
  lemma RequestedKeyIsDead(db: Db, cfg: Settings, i: TaskId)
    requires Inv(db, cfg) && i in db.tasks && i.request.kind == SongResource && i.key.Some?
    requires i.request in db.requests && db.requests[i.request].status != Completed
    ensures forall s :: s in db.songs ==> db.songs[s].key != i.key
    ensures forall a :: a in db.assets ==> db.assets[a].key != i.key
    ensures forall p :: p in db.phrases ==> db.phrases[p].key != i.key
  {
    hide UniqueOk, ObjectsOk, OutcomesOk, ScoresOk, EvidenceOk, SessionsOk, ManifestsOk;
    assert TaskOk(i, db.tasks[i], db.requests, cfg.retryLimit) && TaskKeyOk(i, db.requests, db.phrases, db.next);
    assert RequestOk(i.request, db.requests[i.request], db.songs, db.next);
    forall s | s in db.songs
      ensures db.songs[s].key != i.key
    {
      assert SongOk(s, db.songs[s], db.next);
    }
    forall a | a in db.assets
      ensures db.assets[a].key != i.key
    {
      assert AssetOk(a, db.assets[a], db.songs, db.next);
    }
    forall p | p in db.phrases
      ensures db.phrases[p].key != i.key
    {
      assert PhraseOk(p, db.phrases[p], db.sessions, db.songs);
    }
  }

  // A step either puts one object, owned by an unerased row, or puts none.
  ghost predicate PutsOnlyOwned(db: Db, after: Db) {
    forall k :: k in after.store && k !in db.store ==>
      || (exists s :: s in db.songs && db.songs[s].key == Some(k))
      || (exists a :: a in db.assets && db.assets[a].key == Some(k))
      || (exists p :: p in db.phrases && db.phrases[p].key == Some(k))
  }

  lemma SourcePutOwned(db: Db, cfg: Settings, tenant: Id, s: Id, payload: Blob, screening: Screening, now: Time,
                       commits: bool)
    ensures PutsOnlyOwned(db, UploadSource(db, cfg, tenant, s, payload, screening, now, commits).db)
  {
    hide PayloadFits;
  }

  lemma AssetPutOwned(db: Db, cfg: Settings, tenant: Id, a: Id, payload: Blob, now: Time, commits: bool)
    ensures PutsOnlyOwned(db, UploadAsset(db, cfg, tenant, a, payload, now, commits).db)
  {
    hide PayloadFits;
  }

  lemma PhrasePutOwned(db: Db, cfg: Settings, tenant: Id, p: Id, payload: Blob, now: Time, commits: bool)
    ensures PutsOnlyOwned(db, UploadPhrase(db, cfg, tenant, p, payload, now, commits).db)
  {
    hide PayloadFits;
  }

  lemma UploadsPutOnlyOwned(db: Db, cfg: Settings, op: Op)
    requires op.OpUploadSource? || op.OpUploadAsset? || op.OpUploadPhrase?
    ensures PutsOnlyOwned(db, Apply(db, cfg, op))
  {
    hide UploadSource, UploadAsset, UploadPhrase, PutsOnlyOwned;
    match op
    case OpUploadSource(t, s, payload, screening, now, commits) =>
      SourcePutOwned(db, cfg, t, s, payload, screening, now, commits);
    case OpUploadAsset(t, a, payload, now, commits) => AssetPutOwned(db, cfg, t, a, payload, now, commits);
    case OpUploadPhrase(t, p, payload, now, commits) => PhrasePutOwned(db, cfg, t, p, payload, now, commits);
  }

  lemma OtherOpsKeepStore(db: Db, cfg: Settings, op: Op)
    requires !ConcernsDeletion(op) && !op.OpUploadSource? && !op.OpUploadAsset? && !op.OpUploadPhrase?
    ensures Apply(db, cfg, op).store == db.store
  {
    hide UploadSource, UploadAsset, UploadPhrase, RequestSongDeletion, ExpireRawAudio, ProcessDeletions,
         ProcessInterrupted;
    hide SameSource, ExistsLiveSource, ManifestFits, RequireEvidence, ScoreObjection;
  }

  lemma PassKeepsGone(db: Db, cfg: Settings, tenant: Id, now: Time, fate: TaskId -> Fate)
    requires Inv(db, cfg) && GoneOk(db)
    ensures GoneOk(ProcessDeletions(db, cfg, tenant, now, fate).db)
  {
    hide RowsOk, UniqueOk, ObjectsOk, RequestsOk, OutcomesOk, ProcessDeletions, RemovedKeys, DueTasks;
    var after := ProcessDeletions(db, cfg, tenant, now, fate).db;
    PassMoves(db, cfg, tenant, now, fate);
    forall i | i in after.tasks && i.request.kind == SongResource && i.key.Some? && i.request in after.requests
               && after.requests[i.request].status != Completed && after.tasks[i].status == Completed
      ensures i.key.value !in after.store
    {
      assert TaskOk(i, db.tasks[i], db.requests, cfg.retryLimit);
      if db.tasks[i].status != Completed {
        CompletedKeysRemoved(db, cfg, tenant, now, fate, i);
      }
    }
  }

  lemma RequestingKeepsGone(db: Db, cfg: Settings, tenant: Id, s: Id, now: Time)
    requires Inv(db, cfg) && GoneOk(db)
    ensures GoneOk(RequestSongDeletion(db, tenant, s, now).db)
  {
    var step := RequestSongDeletion(db, tenant, s, now);
    if step.answer.Created? {
      hide Inv, SongKeys, SongRowsErased, RequestSongDeletion;
      DeletionErases(db, tenant, s, now);
      assert SongRowsErased(db, step.db, tenant, s, now) ==> step.db.store == db.store by {
        ErasedStore(db, step.db, tenant, s, now);
      }
    }
  }

  lemma ErasedStore(db: Db, after: Db, tenant: Id, s: Id, now: Time)
    requires s in db.songs
    ensures SongRowsErased(db, after, tenant, s, now) ==> after.store == db.store
  {
  }

  lemma StepGone(db: Db, cfg: Settings, op: Op)
    requires Inv(db, cfg) && GoneOk(db)
    ensures GoneOk(Apply(db, cfg, op))
  {
    hide Inv, RequestSongDeletion, ExpireRawAudio, ProcessDeletions, RemovedKeys, DueTasks;
    hide SameSource, ExistsLiveSource, ManifestFits, RequireEvidence, ScoreObjection, PayloadFits;
    match op
    case OpRequestSongDeletion(t, s, now) => RequestingKeepsGone(db, cfg, t, s, now);
    case OpExpireRawAudio(t, now) => ExpiryIsChange(db, cfg, t, now);
    case OpProcessDeletions(t, now, fate) => PassKeepsGone(db, cfg, t, now, fate);
    case OpProcessInterrupted(_, _, _, _) =>
    case _ => PutKeepsGone(db, cfg, op);
  }

  lemma PutKeepsGone(db: Db, cfg: Settings, op: Op)
    requires Inv(db, cfg) && GoneOk(db) && !ConcernsDeletion(op)
    ensures GoneOk(Apply(db, cfg, op))
  {
    hide Inv, Apply;
    var after := Apply(db, cfg, op);
    OtherOpsKeepTasks(db, cfg, op);
    if op.OpUploadSource? || op.OpUploadAsset? || op.OpUploadPhrase? {
      UploadsPutOnlyOwned(db, cfg, op);
    } else {
      OtherOpsKeepStore(db, cfg, op);
    }
    forall i | i in db.tasks && i.request.kind == SongResource && i.key.Some? && i.request in db.requests
               && db.requests[i.request].status != Completed && db.tasks[i].status == Completed
      ensures i.key.value !in after.store
    {
      RequestedKeyIsDead(db, cfg, i);
    }
  }

  lemma {:induction false} RunGone(db: Db, cfg: Settings, ops: seq<Op>)
    requires Inv(db, cfg) && GoneOk(db) && cfg.retryLimit >= 1
    ensures GoneOk(Run(db, cfg, ops)) && Inv(Run(db, cfg, ops), cfg) && TasksPersist(db, Run(db, cfg, ops))
    decreases |ops|
  {
    hide Inv, GoneOk, Apply;
    RunInv(db, cfg, ops);
    if ops != [] {
      var before := Run(db, cfg, ops[..|ops| - 1]);
      RunGone(db, cfg, ops[..|ops| - 1]);
      StepGone(before, cfg, ops[|ops| - 1]);
      FinishedIsFinal(before, cfg, ops[|ops| - 1]);
    }
  }

  // ----- A completed deletion ---------------------------------------------------------------

  ghost predicate NoRowsOf(db: Db, s: Id) {
    && s !in db.songs
    && (forall a :: a in db.assets ==> db.assets[a].song != s)
    && (forall m :: m in db.manifests ==> db.manifests[m].song != s)
    && (forall n :: n in db.sessions ==> db.sessions[n].song != s)
    && (forall p :: p in db.phrases ==> db.phrases[p].song != s)
    && (forall c :: c in db.scores ==> db.scores[c].song != s)
  }

  ghost predicate JustCompleted(db: Db, after: Db, r: RequestId) {
    && r in db.requests && db.requests[r].status != Completed
    && r in after.requests && after.requests[r].status == Completed
  }

  lemma CompletionPurges(db: Db, cfg: Settings, tenant: Id, now: Time, fate: TaskId -> Fate, r: RequestId)
    requires Inv(db, cfg) && r.kind == SongResource
    requires JustCompleted(db, ProcessDeletions(db, cfg, tenant, now, fate).db, r)
    ensures var after := ProcessDeletions(db, cfg, tenant, now, fate).db;
            r.tenant == tenant && AllCompleted(after.tasks, r) && NoRowsOf(after, r.resource)
  {
    hide Inv, ProcessDeletions, AllCompleted, SomeFailed;
    var after := ProcessDeletions(db, cfg, tenant, now, fate).db;
    PassMoves(db, cfg, tenant, now, fate);
    PassRestricts(db, cfg, tenant, now, fate);
    assert Purging(db, after.tasks, tenant, r.resource);
    PurgingSong(db, cfg, after.tasks, tenant, r.resource);
  }

  // When the worker marks a song's deletion COMPLETED: no row of the song is left, no
  // object of the song or its assets is stored, no key the deletion was created for
  // is stored, and a stored object of one of its phrases is still held by an
  // unfinished expiry of that phrase's own.
  lemma CompletedMeansGone(db: Db, cfg: Settings, tenant: Id, now: Time, fate: TaskId -> Fate, r: RequestId)
    requires Inv(db, cfg) && GoneOk(db) && cfg.retryLimit >= 1 && r.kind == SongResource
    requires JustCompleted(db, ProcessDeletions(db, cfg, tenant, now, fate).db, r)
    ensures var after := ProcessDeletions(db, cfg, tenant, now, fate).db;
            && NoRowsOf(after, r.resource)
            && (forall k :: TaskId(r, Some(k)) in after.tasks ==> k !in after.store)
            && (forall k :: k in after.store && !k.PhraseKey? && k.tenant == r.tenant ==> k.song != r.resource)
            && (forall k :: k in after.store && k.PhraseKey? && k.tenant == r.tenant && k.phrase in db.phrases
                            && db.phrases[k.phrase].song == r.resource ==>
                  OpenTask(after.tasks, RequestId(tenant, PhraseAudio, k.phrase), k))
  {
    hide Inv, ProcessDeletions, RemovedKeys, DueTasks;
    var after := ProcessDeletions(db, cfg, tenant, now, fate).db;
    CompletionPurges(db, cfg, tenant, now, fate, r);
    ProcessDeletionsInv(db, cfg, tenant, now, fate);
    PassMoves(db, cfg, tenant, now, fate);
    forall k | TaskId(r, Some(k)) in after.tasks
      ensures k !in after.store
    {
      if db.tasks[TaskId(r, Some(k))].status != Completed {
        TaskKeyWhileOpen(db, cfg, TaskId(r, Some(k)));
        CompletedKeysRemoved(db, cfg, tenant, now, fate, TaskId(r, Some(k)));
      }
    }
    forall k | k in after.store
      ensures Held(k, after.songs, after.assets, after.phrases, after.tasks)
    {
      StoredIsHeld(after, cfg, k);
    }
    CompletedOwnsNothing(after, cfg, r);
    forall p | p in db.phrases && db.phrases[p].song == r.resource
      ensures p !in after.phrases
    {
      PassRestricts(db, cfg, tenant, now, fate);
    }
  }

  lemma TaskKeyWhileOpen(db: Db, cfg: Settings, i: TaskId)
    requires Inv(db, cfg) && i in db.tasks && db.tasks[i].status != Completed
    ensures db.tasks[i].key == i.key
  {
    assert TaskOk(i, db.tasks[i], db.requests, cfg.retryLimit);
  }

  lemma StoredIsHeld(db: Db, cfg: Settings, k: Key)
    requires Inv(db, cfg) && k in db.store
    ensures Held(k, db.songs, db.assets, db.phrases, db.tasks)
  {
    hide RowsOk, UniqueOk, DeletionsOk, Held;
  }

  // After completion nothing can own a key of the song or of its assets any more.
  lemma CompletedOwnsNothing(db: Db, cfg: Settings, r: RequestId)
    requires Inv(db, cfg) && r.kind == SongResource && r in db.requests && db.requests[r].status == Completed
    ensures forall a :: a in db.assets && db.assets[a].key.Some? && db.assets[a].key.value.AssetKey? ==>
              db.assets[a].key.value.song in db.songs
    ensures r.resource !in db.songs
    ensures forall k :: !OpenTask(db.tasks, r, k)
  {
    hide UniqueOk, ObjectsOk, OutcomesOk, ScoresOk, EvidenceOk, SessionsOk, ManifestsOk, PhrasesOk;
    assert RequestOk(r, db.requests[r], db.songs, db.next);
    forall a | a in db.assets && db.assets[a].key.Some? && db.assets[a].key.value.AssetKey?
      ensures db.assets[a].key.value.song in db.songs
    {
      assert AssetOk(a, db.assets[a], db.songs, db.next);
    }
    forall k
      ensures !OpenTask(db.tasks, r, k)
    {
      if TaskId(r, Some(k)) in db.tasks {
        assert TaskOk(TaskId(r, Some(k)), db.tasks[TaskId(r, Some(k))], db.requests, cfg.retryLimit);
      }
    }
  }

  // The same over time: from the request, through any operations, to the pass that
  // completes it.  Every key the song's rows held when deletion was requested is
  // gone, and so is every row.
  lemma DeletionErasesWhatItListed(db: Db, cfg: Settings, tenant: Id, s: Id, requestedAt: Time, ops: seq<Op>,
                                   now: Time, fate: TaskId -> Fate)
    requires Inv(db, cfg) && GoneOk(db) && cfg.retryLimit >= 1
    requires RequestSongDeletion(db, tenant, s, requestedAt).answer.Created?
    requires var before := Run(RequestSongDeletion(db, tenant, s, requestedAt).db, cfg, ops);
             JustCompleted(before, ProcessDeletions(before, cfg, tenant, now, fate).db,
                           RequestId(tenant, SongResource, s))
    ensures var before := Run(RequestSongDeletion(db, tenant, s, requestedAt).db, cfg, ops);
            var after := ProcessDeletions(before, cfg, tenant, now, fate).db;
            NoRowsOf(after, s) && forall k :: k in SongKeys(db, tenant, s) ==> k !in after.store
  {
    var r := RequestId(tenant, SongResource, s);
    var requested := RequestSongDeletion(db, tenant, s, requestedAt).db;
    RequestSongDeletionResult(db, tenant, s, requestedAt);
    hide Inv, GoneOk, Run, ProcessDeletions, RequestSongDeletion, SongKeys, NoRowsOf, JustCompleted;
    RequestSongDeletionInv(db, cfg, tenant, s, requestedAt);
    RequestingKeepsGone(db, cfg, tenant, s, requestedAt);
    RunGone(requested, cfg, ops);
    var before := Run(requested, cfg, ops);
    CompletedMeansGone(before, cfg, tenant, now, fate, r);
    PassMoves(before, cfg, tenant, now, fate);
    forall k | k in SongKeys(db, tenant, s)
      ensures TaskId(r, Some(k)) in before.tasks
    {
      ListedKeyHasTask(db, tenant, s, requestedAt, k);
    }
  }

  lemma ListedKeyHasTask(db: Db, tenant: Id, s: Id, now: Time, k: Key)
    requires RequestSongDeletion(db, tenant, s, now).answer.Created? && k in SongKeys(db, tenant, s)
    ensures TaskId(RequestId(tenant, SongResource, s), Some(k)) in RequestSongDeletion(db, tenant, s, now).db.tasks
  {
    hide RequestSongDeletion, SongKeys, SongRowsErased;
    RequestSongDeletionResult(db, tenant, s, now);
    DeletionErases(db, tenant, s, now);
    ListedKeyIsOpen(db, RequestSongDeletion(db, tenant, s, now).db, tenant, s, now, k);
  }

  // Between request and completion nothing is added to the song.
  ghost predicate NothingAdded(db: Db, after: Db, s: Id) {
    && (forall a :: a in after.assets && after.assets[a].song == s ==> a in db.assets)
    && (forall m :: m in after.manifests && after.manifests[m].song == s ==> m in db.manifests)
    && (forall n :: n in after.sessions && after.sessions[n].song == s ==> n in db.sessions)
    && (forall p :: p in after.phrases && after.phrases[p].song == s ==> p in db.phrases)
    && (forall c :: c in after.scores && after.scores[c].song == s ==> c in db.scores)
  }

  ghost predicate OwnsNothing(db: Db, s: Id) {
    && (s in db.songs ==> db.songs[s].key.None?)
    && (forall a :: a in db.assets && db.assets[a].song == s ==> db.assets[a].key.None?)
    && (forall p :: p in db.phrases && db.phrases[p].song == s ==> db.phrases[p].key.None?)
  }

  lemma DeletedOwnsNothing(db: Db, cfg: Settings, s: Id)
    requires Inv(db, cfg) && s in db.songs && db.songs[s].deletedAt.Some?
    ensures OwnsNothing(db, s)
  {
    hide UniqueOk, ObjectsOk, DeletionsOk, ManifestsOk, SessionsOk, ScoresOk, EvidenceOk;
    assert SongOk(s, db.songs[s], db.next);
    forall a | a in db.assets && db.assets[a].song == s
      ensures db.assets[a].key.None?
    {
      assert AssetOk(a, db.assets[a], db.songs, db.next);
    }
    forall p | p in db.phrases && db.phrases[p].song == s
      ensures db.phrases[p].key.None?
    {
      assert PhraseOk(p, db.phrases[p], db.sessions, db.songs);
    }
  }

  ghost predicate Untouched(db: Db, after: Db, s: Id) {
    NothingAdded(db, after, s) && s in after.songs && after.songs[s].deletedAt.Some?
  }

  lemma CreateSongAdds(db: Db, s: Id, tenant: Id, sha: Blob, length: int, media: Media)
    requires s in db.songs && db.songs[s].deletedAt.Some? && s < db.next
    ensures Untouched(db, CreateSong(db, tenant, sha, length, media).db, s)
  {
    hide CreateSong;
    CreateSongResult(db, tenant, sha, length, media);
  }

  lemma ReserveAssetAdds(db: Db, s: Id, tenant: Id, t: Id, kind: AssetKind, sha: Blob, length: int, mediaType: nat,
                         release: Option<Version>)
    requires s in db.songs && db.songs[s].deletedAt.Some?
    ensures Untouched(db, ReserveAsset(db, tenant, t, kind, sha, length, mediaType, release).db, s)
  {
    hide ReserveAsset;
    ReserveAssetResult(db, tenant, t, kind, sha, length, mediaType, release);
  }

  lemma PublishManifestAdds(db: Db, s: Id, tenant: Id, t: Id, doc: ManifestDoc, now: Time)
    requires s in db.songs && db.songs[s].deletedAt.Some?
    ensures Untouched(db, PublishManifest(db, tenant, t, doc, now).db, s)
  {
    hide PublishManifest;
    PublishManifestResult(db, tenant, t, doc, now);
  }

  lemma CreateSessionAdds(db: Db, s: Id, tenant: Id, t: Id, m: Id, calibration: Version)
    requires s in db.songs && db.songs[s].deletedAt.Some?
    ensures Untouched(db, CreateSession(db, tenant, t, m, calibration).db, s)
  {
    var after := CreateSession(db, tenant, t, m, calibration).db;
    assert after == db.(sessions := after.sessions, next := after.next);
  }

  lemma ReservePhraseResult(db: Db, cfg: Settings, tenant: Id, doc: PhraseDoc, now: Time)
    ensures var step := ReservePhrase(db, cfg, tenant, doc, now);
            if step.answer.Created? then
              && doc.tenant == tenant && LiveSession(db, tenant, doc.session) && doc.phrase !in db.phrases
              && step.db == db.(phrases := db.phrases[doc.phrase := NewPhrase(doc, db.sessions[doc.session].song,
                 now + cfg.ttl)])
            else
              step.db == db
  {
    hide SamePhrase, SamePhraseKey, NewPhrase;
  }

  lemma ReservePhraseAdds(db: Db, cfg: Settings, s: Id, tenant: Id, doc: PhraseDoc, now: Time)
    requires Inv(db, cfg) && s in db.songs && db.songs[s].deletedAt.Some?
    ensures Untouched(db, ReservePhrase(db, cfg, tenant, doc, now).db, s)
  {
    hide Inv, ReservePhrase;
    ReservePhraseResult(db, cfg, tenant, doc, now);
    if LiveSession(db, tenant, doc.session) {
      LiveSessionOfLiveSong(db, cfg, doc.session);
    }
  }

  lemma WriteScoreAdds(db: Db, s: Id, tenant: Id, doc: ScoreDoc, idem: string, m: Id, now: Time)
    requires s in db.songs && db.songs[s].deletedAt.Some?
    ensures Untouched(db, WriteScore(db, tenant, doc, idem, m, now).db, s)
  {
    hide WriteScore;
    WriteScoreResult(db, tenant, doc, idem, m, now);
  }

  lemma UploadSourceAdds(db: Db, cfg: Settings, s: Id, tenant: Id, t: Id, payload: Blob, screening: Screening,
                         now: Time, commits: bool)
    requires s in db.songs && db.songs[s].deletedAt.Some?
    ensures Untouched(db, UploadSource(db, cfg, tenant, t, payload, screening, now, commits).db, s)
  {
    hide PayloadFits;
    var after := UploadSource(db, cfg, tenant, t, payload, screening, now, commits).db;
    assert after == db.(songs := after.songs, store := after.store) && s in after.songs
           && after.songs[s] == db.songs[s];
  }

  lemma UploadAssetAdds(db: Db, cfg: Settings, s: Id, tenant: Id, t: Id, payload: Blob, now: Time, commits: bool)
    requires s in db.songs && db.songs[s].deletedAt.Some?
    ensures Untouched(db, UploadAsset(db, cfg, tenant, t, payload, now, commits).db, s)
  {
    hide PayloadFits;
    var after := UploadAsset(db, cfg, tenant, t, payload, now, commits).db;
    assert after == db.(assets := after.assets, store := after.store) && after.assets.Keys == db.assets.Keys;
  }

  lemma UploadPhraseAdds(db: Db, cfg: Settings, s: Id, tenant: Id, t: Id, payload: Blob, now: Time, commits: bool)
    requires s in db.songs && db.songs[s].deletedAt.Some?
    ensures Untouched(db, UploadPhrase(db, cfg, tenant, t, payload, now, commits).db, s)
  {
    hide PayloadFits;
    var after := UploadPhrase(db, cfg, tenant, t, payload, now, commits).db;
    assert after == db.(phrases := after.phrases, store := after.store) && after.phrases.Keys == db.phrases.Keys;
  }

  lemma LiveSessionOfLiveSong(db: Db, cfg: Settings, n: Id)
    requires Inv(db, cfg) && n in db.sessions
    ensures db.sessions[n].song in db.songs
    ensures db.sessions[n].deletedAt.None? <==> db.songs[db.sessions[n].song].deletedAt.None?
  {
    assert SessionOk(n, db.sessions[n], db.manifests, db.songs, db.next);
  }

  lemma SongIsOld(db: Db, cfg: Settings, s: Id)
    requires Inv(db, cfg) && s in db.songs
    ensures s < db.next
  {
    assert SongOk(s, db.songs[s], db.next);
  }

  lemma UploadsNeedLiveSong(db: Db, cfg: Settings, op: Op, s: Id)
    requires op.OpUploadSource? || op.OpUploadAsset? || op.OpUploadPhrase?
    requires s in db.songs && db.songs[s].deletedAt.Some?
    ensures Untouched(db, Apply(db, cfg, op), s)
  {
    hide Untouched, UploadSource, UploadAsset, UploadPhrase;
    match op
    case OpUploadSource(t, q, payload, screening, now, commits) =>
      UploadSourceAdds(db, cfg, s, t, q, payload, screening, now, commits);
    case OpUploadAsset(t, q, payload, now, commits) => UploadAssetAdds(db, cfg, s, t, q, payload, now, commits);
    case OpUploadPhrase(t, q, payload, now, commits) => UploadPhraseAdds(db, cfg, s, t, q, payload, now, commits);
  }

  lemma PracticeNeedsLiveSong(db: Db, cfg: Settings, op: Op, s: Id)
    requires op.OpCreateSession? || op.OpReservePhrase? || op.OpWriteScore?
    requires Inv(db, cfg) && s in db.songs && db.songs[s].deletedAt.Some?
    ensures Untouched(db, Apply(db, cfg, op), s)
  {
    hide Inv, Untouched, CreateSession, ReservePhrase, WriteScore;
    match op
    case OpCreateSession(t, q, m, calibration) => CreateSessionAdds(db, s, t, q, m, calibration);
    case OpReservePhrase(t, doc, now) => ReservePhraseAdds(db, cfg, s, t, doc, now);
    case OpWriteScore(t, doc, idem, m, now) => WriteScoreAdds(db, s, t, doc, idem, m, now);
  }

  lemma InsertionsNeedLiveSong(db: Db, cfg: Settings, op: Op, s: Id)
    requires Inv(db, cfg) && !ConcernsDeletion(op) && s in db.songs && db.songs[s].deletedAt.Some?
    ensures Untouched(db, Apply(db, cfg, op), s)
  {
    SongIsOld(db, cfg, s);
    hide Inv, Untouched, CreateSong, ReserveAsset, PublishManifest;
    match op
    case OpCreateSong(t, sha, length, media) => CreateSongAdds(db, s, t, sha, length, media);
    case OpReserveAsset(t, q, kind, sha, length, mediaType, release) =>
      ReserveAssetAdds(db, s, t, q, kind, sha, length, mediaType, release);
    case OpPublishManifest(t, q, doc, now) => PublishManifestAdds(db, s, t, q, doc, now);
    case _ =>
      hide Apply;
      if op.OpUploadSource? || op.OpUploadAsset? || op.OpUploadPhrase? {
        UploadsNeedLiveSong(db, cfg, op, s);
      } else {
        PracticeNeedsLiveSong(db, cfg, op, s);
      }
  }

  lemma DeletionOpsAddNothing(db: Db, cfg: Settings, op: Op, s: Id)
    requires Inv(db, cfg) && ConcernsDeletion(op) && s in db.songs && db.songs[s].deletedAt.Some?
    ensures var after := Apply(db, cfg, op);
            NothingAdded(db, after, s) && (s in after.songs ==> after.songs[s].deletedAt.Some?)
  {
    hide Inv, RequestSongDeletion, ExpireRawAudio, ProcessDeletions, NothingAdded;
    hide CreateSong, UploadSource, ReserveAsset, UploadAsset, PublishManifest, CreateSession, ReservePhrase,
         UploadPhrase, WriteScore;
    match op
    case OpRequestSongDeletion(t, q, now) => RequestingAdds(db, t, q, now, s);
    case OpExpireRawAudio(t, now) => ExpiryAdds(db, cfg, t, now, s);
    case OpProcessDeletions(t, now, fate) => PassAdds(db, cfg, t, now, fate, s);
    case OpProcessInterrupted(_, _, _, _) => NothingHappens(db, Apply(db, cfg, op), s);
  }

  lemma NothingHappens(db: Db, after: Db, s: Id)
    requires after == db.(store := after.store)
    ensures NothingAdded(db, after, s)
  {
  }

  lemma RequestingAdds(db: Db, tenant: Id, q: Id, now: Time, s: Id)
    requires s in db.songs && db.songs[s].deletedAt.Some?
    ensures var after := RequestSongDeletion(db, tenant, q, now).db;
            NothingAdded(db, after, s) && (s in after.songs ==> after.songs[s].deletedAt.Some?)
  {
    hide SongKeys, NewTasks, TaskIds;
  }

  lemma ExpiryAdds(db: Db, cfg: Settings, tenant: Id, now: Time, s: Id)
    requires Inv(db, cfg) && s in db.songs && db.songs[s].deletedAt.Some?
    ensures var after := ExpireRawAudio(db, tenant, now).db;
            NothingAdded(db, after, s) && (s in after.songs ==> after.songs[s].deletedAt.Some?)
  {
    hide Inv, ExpireRawAudio;
    ExpiryIsChange(db, cfg, tenant, now);
  }

  lemma PassAdds(db: Db, cfg: Settings, tenant: Id, now: Time, fate: TaskId -> Fate, s: Id)
    requires Inv(db, cfg) && s in db.songs && db.songs[s].deletedAt.Some?
    ensures var after := ProcessDeletions(db, cfg, tenant, now, fate).db;
            NothingAdded(db, after, s) && (s in after.songs ==> after.songs[s].deletedAt.Some?)
  {
    hide Inv, ProcessDeletions;
    PassRestricts(db, cfg, tenant, now, fate);
  }

  // A song whose deletion has been requested stays deleted, gains no row and owns no
  // key, until a pass completes the deletion and removes its row.
  lemma DeletedSongStaysClosed(db: Db, cfg: Settings, op: Op, s: Id)
    requires Inv(db, cfg) && cfg.retryLimit >= 1 && s in db.songs && db.songs[s].deletedAt.Some?
    ensures var after := Apply(db, cfg, op);
            && NothingAdded(db, after, s)
            && (s in after.songs ==> after.songs[s].deletedAt.Some? && OwnsNothing(after, s))
  {
    hide Inv, Apply, NothingAdded, OwnsNothing;
    StepInv(db, cfg, op);
    if ConcernsDeletion(op) {
      DeletionOpsAddNothing(db, cfg, op, s);
    } else {
      InsertionsNeedLiveSong(db, cfg, op, s);
    }
    if s in Apply(db, cfg, op).songs {
      DeletedOwnsNothing(Apply(db, cfg, op), cfg, s);
    }
  }

  // ----- Retries -----------------------------------------------------------------------------

  // How often a run's passes attempt a task.
  ghost function TimesDue(db: Db, cfg: Settings, ops: seq<Op>, i: TaskId): nat
    decreases |ops|
  {
    if ops == [] then 0
    else
      var before, op := Run(db, cfg, ops[..|ops| - 1]), ops[|ops| - 1];
      TimesDue(db, cfg, ops[..|ops| - 1], i)
      + if op.OpProcessDeletions? && i in before.tasks && Due(i, before.tasks[i], op.tenant, op.now) then 1 else 0
  }

  // Attempts so far: failed ones are counted, and a completed task had one more.
  ghost function Tried(tasks: Tasks, i: TaskId): nat {
    if i !in tasks then 0 else tasks[i].attempts + (if tasks[i].status == Completed then 1 else 0)
  }

  lemma StepTries(db: Db, cfg: Settings, op: Op, i: TaskId)
    requires Inv(db, cfg)
    ensures var after := Apply(db, cfg, op);
            Tried(after.tasks, i) >= Tried(db.tasks, i)
              + if op.OpProcessDeletions? && i in db.tasks && Due(i, db.tasks[i], op.tenant, op.now) then 1 else 0
  {
    hide Inv, ProcessDeletions, RemovedKeys, DueTasks, Apply;
    FinishedIsFinal(db, cfg, op);
    if op.OpProcessDeletions? {
      assert Apply(db, cfg, op) == ProcessDeletions(db, cfg, op.tenant, op.now, op.fate).db by {
        ApplyPass(db, cfg, op);
      }
      PassMoves(db, cfg, op.tenant, op.now, op.fate);
    } else {
      TasksUntried(db, cfg, op, i);
    }
  }

  lemma ApplyPass(db: Db, cfg: Settings, op: Op)
    requires op.OpProcessDeletions?
    ensures Apply(db, cfg, op) == ProcessDeletions(db, cfg, op.tenant, op.now, op.fate).db
  {
  }

  // Other operations leave existing tasks as they are.
  lemma TasksUntried(db: Db, cfg: Settings, op: Op, i: TaskId)
    requires Inv(db, cfg) && !op.OpProcessDeletions?
    ensures i in db.tasks ==> i in Apply(db, cfg, op).tasks && Apply(db, cfg, op).tasks[i] == db.tasks[i]
  {
    hide Inv, RequestSongDeletion, ExpireRawAudio, ProcessDeletions, CreateSong, UploadSource, ReserveAsset,
         UploadAsset;
    hide PublishManifest, CreateSession, ReservePhrase, UploadPhrase, WriteScore;
    match op
    case OpRequestSongDeletion(t, s, now) => RequestingLeavesTasks(db, cfg, t, s, now);
    case OpExpireRawAudio(t, now) => ExpiryIsChange(db, cfg, t, now);
    case OpProcessInterrupted(_, _, _, _) =>
    case _ => OtherOpsKeepTasks(db, cfg, op);
  }

  lemma RequestingLeavesTasks(db: Db, cfg: Settings, tenant: Id, s: Id, now: Time)
    requires Inv(db, cfg)
    ensures forall i :: i in db.tasks ==>
              i in RequestSongDeletion(db, tenant, s, now).db.tasks
                  && RequestSongDeletion(db, tenant, s, now).db.tasks[i] == db.tasks[i]
  {
    var step := RequestSongDeletion(db, tenant, s, now);
    if step.answer.Created? {
      hide Inv, SongKeys, SongRowsErased, RequestSongDeletion;
      DeletionErases(db, tenant, s, now);
      UnrequestedSongIsLive(db, cfg, tenant, s);
    }
  }

  // In any run at all, no task is attempted more often than the retry limit.
  ghost predicate AttemptsOk(tasks: Tasks, limit: nat) {
    forall i :: i in tasks ==>
      && tasks[i].attempts <= limit
      && (tasks[i].status == Completed ==> tasks[i].attempts < limit)
      && (tasks[i].status == Failed ==> tasks[i].attempts == limit)
      && (tasks[i].status == Waiting ==> tasks[i].attempts < limit)
  }

  lemma ExpiryAttempts(db: Db, cfg: Settings, tenant: Id, now: Time)
    requires Inv(db, cfg) && cfg.retryLimit >= 1 && AttemptsOk(db.tasks, cfg.retryLimit)
    ensures AttemptsOk(ExpireRawAudio(db, tenant, now).db.tasks, cfg.retryLimit)
  {
    hide Inv, ExpireRawAudio;
    ExpiryIsChange(db, cfg, tenant, now);
  }

  lemma PassAttempts(db: Db, cfg: Settings, tenant: Id, now: Time, fate: TaskId -> Fate)
    requires cfg.retryLimit >= 1 && AttemptsOk(db.tasks, cfg.retryLimit)
    ensures AttemptsOk(ProcessDeletions(db, cfg, tenant, now, fate).db.tasks, cfg.retryLimit)
  {
    hide ProcessDeletions, DueTasks, RemovedKeys;
    PassMoves(db, cfg, tenant, now, fate);
  }

  lemma StepAttempts(db: Db, cfg: Settings, op: Op)
    requires Inv(db, cfg) && cfg.retryLimit >= 1 && AttemptsOk(db.tasks, cfg.retryLimit)
    ensures AttemptsOk(Apply(db, cfg, op).tasks, cfg.retryLimit)
  {
    hide Inv, AttemptsOk, RequestSongDeletion, ExpireRawAudio, ProcessDeletions;
    match op
    case OpRequestSongDeletion(t, s, now) => RequestingAttempts(db, cfg, t, s, now);
    case OpExpireRawAudio(t, now) => ExpiryAttempts(db, cfg, t, now);
    case OpProcessDeletions(t, now, fate) => PassAttempts(db, cfg, t, now, fate);
    case OpProcessInterrupted(_, _, _, _) =>
      hide DueTasks, RemovedKeys;
    case _ =>
      hide Apply;
      OtherOpsKeepTasks(db, cfg, op);
  }

  lemma RequestingAttempts(db: Db, cfg: Settings, tenant: Id, s: Id, now: Time)
    requires Inv(db, cfg) && cfg.retryLimit >= 1 && AttemptsOk(db.tasks, cfg.retryLimit)
    ensures AttemptsOk(RequestSongDeletion(db, tenant, s, now).db.tasks, cfg.retryLimit)
  {
    hide Inv, RequestSongDeletion, SongKeys, SongRowsErased, TaskIds;
    RequestSongDeletionResult(db, tenant, s, now);
    if RequestSongDeletion(db, tenant, s, now).answer.Created? {
      DeletionErases(db, tenant, s, now);
    }
  }

  lemma {:induction false} RetriesAreBounded(db: Db, cfg: Settings, ops: seq<Op>, i: TaskId)
    requires Inv(db, cfg) && cfg.retryLimit >= 1 && AttemptsOk(db.tasks, cfg.retryLimit)
    ensures Tried(db.tasks, i) + TimesDue(db, cfg, ops, i) <= Tried(Run(db, cfg, ops).tasks, i) <= cfg.retryLimit
    ensures AttemptsOk(Run(db, cfg, ops).tasks, cfg.retryLimit)
    decreases |ops|
  {
    hide Inv, Apply;
    if ops != [] {
      var before, op := Run(db, cfg, ops[..|ops| - 1]), ops[|ops| - 1];
      RetriesAreBounded(db, cfg, ops[..|ops| - 1], i);
      RunInv(db, cfg, ops[..|ops| - 1]);
      StepTries(before, cfg, op, i);
      StepAttempts(before, cfg, op);
    }
  }
}
