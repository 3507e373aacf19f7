// When the completed deletion of a song leaves none of its phrases' audio behind.
module ControlPlaneAudio {
  import opened ControlPlane
  import opened ControlPlaneInvariant
  import opened ControlPlaneDeletion
  import opened ControlPlaneTheorems
  import opened ControlPlaneRuns
  import opened Options

  // ----- The question -------------------------------------------------------------------

  // The key names one of the song's phrases.
  ghost predicate AudioOf(db: Db, tenant: Id, s: Id, k: Key) {
    k.PhraseKey? && k.tenant == tenant && k.phrase in db.phrases && db.phrases[k.phrase].song == s
  }

  // What a caller can check before asking for the deletion: all stored audio of the
  // song's phrases is on the phrases' own rows, that is, none of it is being expired.
  ghost predicate AudioOnRows(db: Db, tenant: Id, s: Id) {
    forall k :: k in db.store && AudioOf(db, tenant, s, k) ==> db.phrases[k.phrase].key == Some(k)
  }

  // If this pass, after these operations, completes the deletion requested now, nothing
  // of the audio is stored afterwards.
  ghost predicate LeavesNoAudio(
    db: Db, cfg: Settings, tenant: Id, s: Id, requestedAt: Time, ops: seq<Op>, passAt: Time, fate: TaskId -> Fate
  ) {
    var before := Run(RequestSongDeletion(db, tenant, s, requestedAt).db, cfg, ops);
    var after := ProcessDeletions(before, cfg, tenant, passAt, fate).db;
    JustCompleted(before, after, RequestId(tenant, SongResource, s)) ==>
      forall k :: AudioOf(db, tenant, s, k) ==> k !in after.store
  }

  // ----- Between request and completion ---------------------------------------------------

  ghost predicate PhraseThere(db: Db, s: Id, p: Id) {
    p in db.phrases && db.phrases[p].song == s
  }

  lemma PassKeepsPhrases(db: Db, cfg: Settings, tenant: Id, now: Time, fate: TaskId -> Fate, s: Id, p: Id)
    requires Inv(db, cfg) && PhraseThere(db, s, p) && s in db.songs
    requires var r := RequestId(db.songs[s].tenant, SongResource, s);
             var after := ProcessDeletions(db, cfg, tenant, now, fate).db;
             r in after.requests ==> after.requests[r].status != Completed
    ensures PhraseThere(ProcessDeletions(db, cfg, tenant, now, fate).db, s, p)
  {
    hide Inv, ProcessDeletions, AllCompleted, SomeFailed, RemovedKeys, DueTasks;
    var after := ProcessDeletions(db, cfg, tenant, now, fate).db;
    PassMoves(db, cfg, tenant, now, fate);
    PassRestricts(db, cfg, tenant, now, fate);
    if Purging(db, after.tasks, tenant, s) {
      PurgingSong(db, cfg, after.tasks, tenant, s);
    }
  }

  lemma UploadKeepsPhrases(
    db: Db, cfg: Settings, tenant: Id, q: Id, payload: Blob, now: Time, commits: bool, s: Id, p: Id
  )
    requires PhraseThere(db, s, p)
    ensures PhraseThere(UploadPhrase(db, cfg, tenant, q, payload, now, commits).db, s, p)
  {
    hide PayloadFits, PutRefused;
  }

  lemma RequestingKeepsPhrases(db: Db, tenant: Id, q: Id, now: Time, s: Id, p: Id)
    requires PhraseThere(db, s, p)
    ensures PhraseThere(RequestSongDeletion(db, tenant, q, now).db, s, p)
  {
    hide RequestSongDeletion, SongKeys, NewTasks, TaskIds;
    RequestSongDeletionResult(db, tenant, q, now);
    if RequestSongDeletion(db, tenant, q, now).answer.Created? {
      DeletionErases(db, tenant, q, now);
    }
  }

  // Until the deletion completes the song's phrases keep their rows.
  lemma StepKeepsPhrases(db: Db, cfg: Settings, op: Op, s: Id, p: Id)
    requires Inv(db, cfg) && PhraseThere(db, s, p) && s in db.songs
    requires var r, after := RequestId(db.songs[s].tenant, SongResource, s), Apply(db, cfg, op);
             r in after.requests ==> after.requests[r].status != Completed
    ensures PhraseThere(Apply(db, cfg, op), s, p)
  {
    hide Inv, RequestSongDeletion, ExpireRawAudio, ProcessDeletions, CreateSong, UploadSource, ReserveAsset,
         UploadAsset;
    hide PublishManifest, CreateSession, ReservePhrase, UploadPhrase, WriteScore;
    match op
    case OpRequestSongDeletion(t, q, now) => RequestingKeepsPhrases(db, t, q, now, s, p);
    case OpExpireRawAudio(t, now) => ExpiryPhrases(db, t, now);
    case OpProcessDeletions(t, now, fate) => PassKeepsPhrases(db, cfg, t, now, fate, s, p);
    case OpProcessInterrupted(_, _, _, _) =>
    case OpReservePhrase(t, doc, now) => ReservePhraseResult(db, cfg, t, doc, now);
    case OpUploadPhrase(t, q, payload, now, commits) => UploadKeepsPhrases(db, cfg, t, q, payload, now, commits, s, p);
    case _ => OtherOpsKeepPhrases(db, cfg, op);
  }

  lemma OnlyPhrasesOwnAudio(db: Db, cfg: Settings, k: Key)
    requires Inv(db, cfg) && k.PhraseKey?
    ensures forall s :: s in db.songs ==> db.songs[s].key != Some(k)
    ensures forall a :: a in db.assets ==> db.assets[a].key != Some(k)
    ensures forall p :: p in db.phrases && db.phrases[p].key == Some(k) ==> p == k.phrase
  {
    hide UniqueOk, ObjectsOk, DeletionsOk, ScoresOk, EvidenceOk, SessionsOk, ManifestsOk, OfSong;
    assert forall s :: s in db.songs ==> SongOk(s, db.songs[s], db.next);
    assert forall a :: a in db.assets ==> AssetOk(a, db.assets[a], db.songs, db.next);
    assert forall p :: p in db.phrases ==> PhraseOk(p, db.phrases[p], db.sessions, db.songs);
  }

  // Nothing puts audio of a deleted song's phrase.
  lemma StepPutsNoAudio(db: Db, cfg: Settings, op: Op, s: Id, k: Key)
    requires Inv(db, cfg) && k.PhraseKey? && PhraseThere(db, s, k.phrase)
    requires s in db.songs && db.songs[s].deletedAt.Some?
    ensures k in Apply(db, cfg, op).store ==> k in db.store
  {
    hide Inv, RequestSongDeletion, ExpireRawAudio, ProcessDeletions, CreateSong, UploadSource, ReserveAsset,
         UploadAsset;
    hide PublishManifest, CreateSession, ReservePhrase, UploadPhrase, WriteScore, RemovedKeys, DueTasks;
    match op
    case OpRequestSongDeletion(t, q, now) => RequestingKeepsStore(db, t, q, now);
    case OpExpireRawAudio(t, now) => ExpiryPhrases(db, t, now);
    case OpProcessDeletions(t, now, fate) => PassMoves(db, cfg, t, now, fate);
    case OpProcessInterrupted(_, _, _, _) =>
    case _ =>
      if op.OpUploadSource? || op.OpUploadAsset? || op.OpUploadPhrase? {
        UploadsPutOnlyOwned(db, cfg, op);
        OnlyPhrasesOwnAudio(db, cfg, k);
        DeletedOwnsNothing(db, cfg, s);
      } else {
        OtherOpsKeepStore(db, cfg, op);
      }
  }

  lemma RequestingKeepsStore(db: Db, tenant: Id, q: Id, now: Time)
    ensures RequestSongDeletion(db, tenant, q, now).db.store == db.store
  {
    hide SongKeys, NewTasks, TaskIds;
  }

  // While the deletion is unfinished.
  ghost predicate Unfinished(db: Db, tenant: Id, s: Id) {
    var r := RequestId(tenant, SongResource, s);
    r in db.requests && db.requests[r].status != Completed
  }

  lemma UnfinishedIsDeleted(db: Db, cfg: Settings, tenant: Id, s: Id)
    requires Inv(db, cfg) && Unfinished(db, tenant, s)
    ensures s in db.songs && db.songs[s].tenant == tenant && db.songs[s].deletedAt.Some?
  {
    assert RequestOk(RequestId(tenant, SongResource, s), db.requests[RequestId(tenant, SongResource, s)], db.songs,
                     db.next);
  }

  // The rows and the audio of the song's phrases in `db`, later.
  ghost predicate AudioOnlyLeaves(db: Db, later: Db, tenant: Id, s: Id) {
    && (forall p :: PhraseThere(db, s, p) ==> PhraseThere(later, s, p))
    && (forall k :: AudioOf(db, tenant, s, k) && k in later.store ==> k in db.store)
  }

  lemma {:induction false} RunOnlyLoses(db: Db, cfg: Settings, ops: seq<Op>, tenant: Id, s: Id)
    requires Inv(db, cfg) && cfg.retryLimit >= 1 && Unfinished(db, tenant, s)
    requires Unfinished(Run(db, cfg, ops), tenant, s)
    ensures AudioOnlyLeaves(db, Run(db, cfg, ops), tenant, s)
    decreases |ops|
  {
    hide Inv, Apply;
    if ops != [] {
      var n := |ops| - 1;
      var before := Run(db, cfg, ops[..n]);
      RunInv(db, cfg, ops[..n]);
      RequestStays(db, cfg, ops[..n], tenant, s);
      FinishedIsFinal(before, cfg, ops[n]);
      RunOnlyLoses(db, cfg, ops[..n], tenant, s);
      UnfinishedIsDeleted(before, cfg, tenant, s);
      forall p | PhraseThere(db, s, p)
        ensures PhraseThere(Run(db, cfg, ops), s, p)
      {
        StepKeepsPhrases(before, cfg, ops[n], s, p);
      }
      forall k | AudioOf(db, tenant, s, k) && k in Run(db, cfg, ops).store
        ensures k in db.store
      {
        assert PhraseThere(db, s, k.phrase);
        StepPutsNoAudio(before, cfg, ops[n], s, k);
      }
    }
  }

  lemma {:induction false} RequestStays(db: Db, cfg: Settings, ops: seq<Op>, tenant: Id, s: Id)
    requires Inv(db, cfg) && cfg.retryLimit >= 1 && RequestId(tenant, SongResource, s) in db.requests
    ensures RequestId(tenant, SongResource, s) in Run(db, cfg, ops).requests
    decreases |ops|
  {
    hide Inv, Apply;
    if ops != [] {
      var n := |ops| - 1;
      RequestStays(db, cfg, ops[..n], tenant, s);
      RunInv(db, cfg, ops[..n]);
      FinishedIsFinal(Run(db, cfg, ops[..n]), cfg, ops[n]);
    }
  }

  // ----- All audio on its rows: completion leaves none ---------------------------------------

  lemma OnRowsLeavesNone(
    db: Db, cfg: Settings, tenant: Id, s: Id, requestedAt: Time, ops: seq<Op>, passAt: Time, fate: TaskId -> Fate
  )
    requires Inv(db, cfg) && GoneOk(db) && cfg.retryLimit >= 1
    requires s in db.songs && db.songs[s].tenant == tenant && RequestId(tenant, SongResource, s) !in db.requests
    requires AudioOnRows(db, tenant, s)
    ensures LeavesNoAudio(db, cfg, tenant, s, requestedAt, ops, passAt, fate)
  {
    hide Inv, GoneOk, Run, ProcessDeletions, RequestSongDeletion, NoRowsOf, RemovedKeys, DueTasks;
    var r := RequestId(tenant, SongResource, s);
    var requested := RequestSongDeletion(db, tenant, s, requestedAt).db;
    var before := Run(requested, cfg, ops);
    var after := ProcessDeletions(before, cfg, tenant, passAt, fate).db;
    RequestIsCreated(db, tenant, s, requestedAt);
    if JustCompleted(before, after, r) {
      RequestSongDeletionInv(db, cfg, tenant, s, requestedAt);
      RequestingKeepsStore(db, tenant, s, requestedAt);
      DeletionErasesWhatItListed(db, cfg, tenant, s, requestedAt, ops, passAt, fate);
      RunOnlyLoses(requested, cfg, ops, tenant, s);
      PassMoves(before, cfg, tenant, passAt, fate);
      forall k | AudioOf(db, tenant, s, k)
        ensures k !in after.store
      {
        assert PhraseThere(db, s, k.phrase);
        RequestingKeepsPhrases(db, tenant, s, requestedAt, s, k.phrase);
        if k in db.store {
          RowKeyIsListed(db, tenant, s, k, cfg);
        }
      }
    }
  }

  lemma RequestIsCreated(db: Db, tenant: Id, s: Id, now: Time)
    requires s in db.songs && db.songs[s].tenant == tenant && RequestId(tenant, SongResource, s) !in db.requests
    ensures RequestSongDeletion(db, tenant, s, now).answer.Created?
    ensures Unfinished(RequestSongDeletion(db, tenant, s, now).db, tenant, s)
  {
    hide SongKeys, NewTasks, TaskIds;
  }

  lemma RowKeyIsListed(db: Db, tenant: Id, s: Id, k: Key, cfg: Settings)
    requires Inv(db, cfg) && AudioOf(db, tenant, s, k) && db.phrases[k.phrase].key == Some(k)
    ensures k in SongKeys(db, tenant, s)
  {
    assert PhraseOk(k.phrase, db.phrases[k.phrase], db.sessions, db.songs);
  }

  // ----- Audio off its row can outlive the song ------------------------------------------------

  // Every delete of the song's own request succeeds and every other one raises.
  function OnlyOwnDeletes(tenant: Id, s: Id): TaskId -> Fate {
    (i: TaskId) => if i.request == RequestId(tenant, SongResource, s) then Removed else RaisedKept
  }

  // While some other delete of it keeps raising, audio that is no longer on its row is
  // still stored when the deletion of its song completes, in the first pass.
  lemma AudioOutlivesItsSong(db: Db, cfg: Settings, tenant: Id, s: Id, k: Key, now: Time)
    requires Inv(db, cfg) && cfg.retryLimit >= 1
    requires s in db.songs && db.songs[s].tenant == tenant && RequestId(tenant, SongResource, s) !in db.requests
    requires k in db.store && AudioOf(db, tenant, s, k) && db.phrases[k.phrase].key != Some(k)
    ensures var requested := RequestSongDeletion(db, tenant, s, now).db;
            var after := ProcessDeletions(requested, cfg, tenant, now, OnlyOwnDeletes(tenant, s)).db;
            && JustCompleted(requested, after, RequestId(tenant, SongResource, s))
            && NoRowsOf(after, s) && k in after.store
  {
    hide Inv, ProcessDeletions, RequestSongDeletion, SongKeys, NoRowsOf;
    var r := RequestId(tenant, SongResource, s);
    var fate := OnlyOwnDeletes(tenant, s);
    var requested := RequestSongDeletion(db, tenant, s, now).db;
    DeletionErases(db, tenant, s, now);
    RequestSongDeletionInv(db, cfg, tenant, s, now);
    RequestCompletesNow(db, requested, cfg, tenant, s, now, fate);
    CompletionPurges(requested, cfg, tenant, now, fate, r);
    PassMoves(requested, cfg, tenant, now, fate);
    NotAmongSongKeys(db, cfg, tenant, s, k);
    UnrequestedSongIsLive(db, cfg, tenant, s);
    OwnTasksAreListed(db, requested, tenant, s, now, k);
  }

  lemma OwnTasksAreListed(db: Db, requested: Db, tenant: Id, s: Id, now: Time, k: Key)
    requires requested.tasks == db.tasks + NewTasks(TaskIds(RequestId(tenant, SongResource, s),
                                                            SongKeys(db, tenant, s)), now)
    requires k !in SongKeys(db, tenant, s) && forall i :: i in db.tasks ==>
               i.request != RequestId(tenant, SongResource, s)
    ensures forall i :: i in requested.tasks && requested.tasks[i].key == Some(k) ==>
              i.request != RequestId(tenant, SongResource, s)
  {
    hide SongKeys;
  }

  lemma RequestCompletesNow(db: Db, requested: Db, cfg: Settings, tenant: Id, s: Id, now: Time, fate: TaskId -> Fate)
    requires Inv(db, cfg) && s in db.songs && db.songs[s].tenant == tenant
    requires RequestId(tenant, SongResource, s) !in db.requests
    requires requested.requests == db.requests[RequestId(tenant, SongResource, s) := Request(Waiting, now, None)]
    requires requested.tasks == db.tasks + NewTasks(TaskIds(RequestId(tenant, SongResource, s),
                                                            SongKeys(db, tenant, s)), now)
    requires forall i: TaskId :: i.request == RequestId(tenant, SongResource, s) ==> fate(i) == Removed
    ensures JustCompleted(requested, ProcessDeletions(requested, cfg, tenant, now, fate).db,
                          RequestId(tenant, SongResource, s))
  {
    hide Inv, ProcessDeletions, SongKeys, AllCompleted, SomeFailed;
    PassMoves(requested, cfg, tenant, now, fate);
    UnrequestedSongIsLive(db, cfg, tenant, s);
    NewTasksAllComplete(db, requested, ProcessDeletions(requested, cfg, tenant, now, fate).db, cfg, tenant, s, now,
                        fate);
  }

  lemma NewTasksAllComplete(
    db: Db, requested: Db, after: Db, cfg: Settings, tenant: Id, s: Id, now: Time, fate: TaskId -> Fate
  )
    requires s in db.songs
    requires forall i :: i in db.tasks ==> i.request != RequestId(tenant, SongResource, s)
    requires requested.tasks == db.tasks + NewTasks(TaskIds(RequestId(tenant, SongResource, s),
                                                            SongKeys(db, tenant, s)), now)
    requires after.tasks.Keys == requested.tasks.Keys
    requires forall i :: i in requested.tasks && Due(i, requested.tasks[i], tenant, now) ==>
               after.tasks[i] == Attempt(requested.tasks[i], fate(i), now, cfg.retryLimit)
    requires forall i: TaskId :: i.request == RequestId(tenant, SongResource, s) ==> fate(i) == Removed
    ensures AllCompleted(after.tasks, RequestId(tenant, SongResource, s))
  {
    hide SongKeys;
    var r := RequestId(tenant, SongResource, s);
    var ids := TaskIds(r, SongKeys(db, tenant, s));
    if SongKeys(db, tenant, s) == {} {
      assert TaskId(r, None) in ids;
    } else {
      var k :| k in SongKeys(db, tenant, s);
      assert TaskId(r, Some(k)) in ids;
    }
  }

  lemma NotAmongSongKeys(db: Db, cfg: Settings, tenant: Id, s: Id, k: Key)
    requires Inv(db, cfg) && k.PhraseKey? && k.phrase in db.phrases && db.phrases[k.phrase].key != Some(k)
    ensures k !in SongKeys(db, tenant, s)
  {
    hide Inv;
    OnlyPhrasesOwnAudio(db, cfg, k);
  }

  // ----- The answer ---------------------------------------------------------------------------

  // Whatever happens between request and completion, completing the deletion of a song
  // leaves none of its phrases' audio if and only if all of it was on the phrases' rows
  // when the deletion was requested.
  lemma DeletionErasesAudioExactly(db: Db, cfg: Settings, tenant: Id, s: Id, requestedAt: Time)
    requires Inv(db, cfg) && GoneOk(db) && cfg.retryLimit >= 1
    requires s in db.songs && db.songs[s].tenant == tenant && RequestId(tenant, SongResource, s) !in db.requests
    ensures AudioOnRows(db, tenant, s) <==>
              forall ops, passAt, fate :: LeavesNoAudio(db, cfg, tenant, s, requestedAt, ops, passAt, fate)
  {
    hide Inv, GoneOk, LeavesNoAudio;
    if AudioOnRows(db, tenant, s) {
      forall ops, passAt, fate
        ensures LeavesNoAudio(db, cfg, tenant, s, requestedAt, ops, passAt, fate)
      {
        OnRowsLeavesNone(db, cfg, tenant, s, requestedAt, ops, passAt, fate);
      }
    } else {
      var k :| k in db.store && AudioOf(db, tenant, s, k) && db.phrases[k.phrase].key != Some(k);
      OffRowsLeavesSome(db, cfg, tenant, s, k, requestedAt);
    }
  }

  lemma OffRowsLeavesSome(db: Db, cfg: Settings, tenant: Id, s: Id, k: Key, now: Time)
    requires Inv(db, cfg) && cfg.retryLimit >= 1
    requires s in db.songs && db.songs[s].tenant == tenant && RequestId(tenant, SongResource, s) !in db.requests
    requires k in db.store && AudioOf(db, tenant, s, k) && db.phrases[k.phrase].key != Some(k)
    ensures !LeavesNoAudio(db, cfg, tenant, s, now, [], now, OnlyOwnDeletes(tenant, s))
  {
    hide Inv, ProcessDeletions, RequestSongDeletion, NoRowsOf, JustCompleted;
    AudioOutlivesItsSong(db, cfg, tenant, s, k, now);
    assert Run(RequestSongDeletion(db, tenant, s, now).db, cfg, []) == RequestSongDeletion(db, tenant, s, now).db;
  }
}
