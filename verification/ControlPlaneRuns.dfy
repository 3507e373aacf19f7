// Retries, expiry and scores over whole runs.
module ControlPlaneRuns {
  import opened ControlPlane
  import opened ControlPlaneInvariant
  import opened ControlPlaneDeletion
  import opened ControlPlaneTheorems
  import opened Options

  // ----- Deletion passes settle everything ------------------------------------------------

  // The times of a tenant's deletion passes in a run that may do anything else between.
  function PassTimes(ops: seq<Op>, tenant: Id): seq<Time> {
    if ops == [] then []
    else
      var op := ops[|ops| - 1];
      PassTimes(ops[..|ops| - 1], tenant) + if op.OpProcessDeletions? && op.tenant == tenant then [op.now] else []
  }

  // Each pass at least the longest back-off after the one before.
  ghost predicate Spaced(times: seq<Time>) {
    forall j :: 0 <= j < |times| - 1 ==> times[j] + MAX_BACKOFF <= times[j + 1]
  }

  ghost predicate DueBy(tasks: Tasks, i: TaskId, at: Time) {
    i in tasks && tasks[i].status == Waiting ==> tasks[i].nextAttempt <= at
  }

  lemma {:induction false} BackoffBound(attempts: nat)
    ensures 1 <= Backoff(attempts) <= MAX_BACKOFF
  {
    PowerPositive(attempts);
  }

  lemma PowerPositive(n: nat)
    ensures Power2(n) >= 1
  {
  }

  // What a run of passes at these times has done to a task that was there before it.
  ghost predicate Worn(tasks: Tasks, i: TaskId, times: seq<Time>) {
    i in tasks && (tasks[i].status == Waiting && times != [] ==>
                     tasks[i].attempts >= |times| && tasks[i].nextAttempt <= times[|times| - 1] + MAX_BACKOFF)
  }

  lemma PassWears(db: Db, cfg: Settings, tenant: Id, now: Time, fate: TaskId -> Fate, i: TaskId, times: seq<Time>)
    requires i.request.tenant == tenant && Worn(db.tasks, i, times) && DueBy(db.tasks, i, now)
    ensures Worn(ProcessDeletions(db, cfg, tenant, now, fate).db.tasks, i, times + [now])
  {
    hide ProcessDeletions, Backoff, DueTasks, RemovedKeys;
    PassMoves(db, cfg, tenant, now, fate);
    BackoffBound(db.tasks[i].attempts + 1);
  }

  lemma OtherPassLeaves(db: Db, cfg: Settings, tenant: Id, now: Time, fate: TaskId -> Fate, i: TaskId)
    requires i in db.tasks && i.request.tenant != tenant
    ensures var after := ProcessDeletions(db, cfg, tenant, now, fate).db.tasks; i in after && after[i] == db.tasks[i]
  {
    hide ProcessDeletions, DueTasks, RemovedKeys;
    PassMoves(db, cfg, tenant, now, fate);
  }

  // Operations that are not this tenant's passes leave its tasks as they are.
  lemma NoPassLeaves(db: Db, cfg: Settings, op: Op, i: TaskId)
    requires Inv(db, cfg) && i in db.tasks && !(op.OpProcessDeletions? && op.tenant == i.request.tenant)
    ensures i in Apply(db, cfg, op).tasks && Apply(db, cfg, op).tasks[i] == db.tasks[i]
  {
    hide Inv, Apply, ProcessDeletions;
    if op.OpProcessDeletions? {
      ApplyPass(db, cfg, op);
      OtherPassLeaves(db, cfg, op.tenant, op.now, op.fate, i);
    } else {
      TasksUntried(db, cfg, op, i);
    }
  }

  // After n passes over its tenant, a task that is still waiting has failed n times.
  lemma {:induction false} PassesWear(db: Db, cfg: Settings, tenant: Id, ops: seq<Op>, i: TaskId)
    requires Inv(db, cfg) && cfg.retryLimit >= 1 && i in db.tasks && i.request.tenant == tenant
    requires var times := PassTimes(ops, tenant); Spaced(times) && (times != [] ==> DueBy(db.tasks, i, times[0]))
    ensures Worn(Run(db, cfg, ops).tasks, i, PassTimes(ops, tenant))
    ensures PassTimes(ops, tenant) == [] ==> Run(db, cfg, ops).tasks[i] == db.tasks[i]
    decreases |ops|
  {
    hide Inv, Apply, ProcessDeletions;
    if ops != [] {
      var op, before := ops[|ops| - 1], Run(db, cfg, ops[..|ops| - 1]);
      var times := PassTimes(ops[..|ops| - 1], tenant);
      assert times <= PassTimes(ops, tenant);
      PassesWear(db, cfg, tenant, ops[..|ops| - 1], i);
      if op.OpProcessDeletions? && op.tenant == tenant {
        ApplyPass(before, cfg, op);
        assert PassTimes(ops, tenant) == times + [op.now];
        var all := PassTimes(ops, tenant);
        if times != [] {
          assert all[|times| - 1] + MAX_BACKOFF <= all[|times| - 1 + 1];
        }
        PassWears(before, cfg, tenant, op.now, op.fate, i, times);
      } else {
        RunInv(db, cfg, ops[..|ops| - 1]);
        NoPassLeaves(before, cfg, op, i);
        assert PassTimes(ops, tenant) == times;
      }
    }
  }

  // As many passes as the retry limit, far enough apart, settle a task, whatever the
  // store does and whatever else happens between them.
  lemma TaskSettles(db: Db, cfg: Settings, tenant: Id, ops: seq<Op>, i: TaskId)
    requires Inv(db, cfg) && cfg.retryLimit >= 1 && i in db.tasks && i.request.tenant == tenant
    requires var times := PassTimes(ops, tenant);
             |times| >= cfg.retryLimit && Spaced(times) && DueBy(db.tasks, i, times[0])
    ensures var after := Run(db, cfg, ops); i in after.tasks && after.tasks[i].status != Waiting
  {
    hide Inv, Run, Spaced;
    PassesWear(db, cfg, tenant, ops, i);
    RunInv(db, cfg, ops);
    WaitingBelowLimit(Run(db, cfg, ops), cfg);
  }

  // A task is only ever added together with its request.
  lemma StepAddsWithRequest(db: Db, cfg: Settings, op: Op)
    requires Inv(db, cfg)
    ensures forall i :: i in Apply(db, cfg, op).tasks && i.request in db.requests ==> i in db.tasks
  {
    hide Inv, RequestSongDeletion, ExpireRawAudio, ProcessDeletions, CreateSong, UploadSource, ReserveAsset,
         UploadAsset;
    hide PublishManifest, CreateSession, ReservePhrase, UploadPhrase, WriteScore, DueTasks, RemovedKeys;
    match op
    case OpRequestSongDeletion(t, s, now) => RequestingAddsWithRequest(db, t, s, now);
    case OpExpireRawAudio(t, now) => ExpiryIsChange(db, cfg, t, now);
    case OpProcessDeletions(t, now, fate) => PassMoves(db, cfg, t, now, fate);
    case OpProcessInterrupted(_, _, _, _) =>
    case _ => OtherOpsKeepTasks(db, cfg, op);
  }

  lemma RequestingAddsWithRequest(db: Db, tenant: Id, s: Id, now: Time)
    ensures forall i :: i in RequestSongDeletion(db, tenant, s, now).db.tasks && i.request in db.requests ==>
              i in db.tasks
  {
    hide RequestSongDeletion, SongKeys, SongRowsErased;
    RequestSongDeletionResult(db, tenant, s, now);
    if RequestSongDeletion(db, tenant, s, now).answer.Created? {
      DeletionErases(db, tenant, s, now);
    }
  }

  lemma {:induction false} RunAddsWithRequest(db: Db, cfg: Settings, ops: seq<Op>, r: RequestId)
    requires Inv(db, cfg) && cfg.retryLimit >= 1 && r in db.requests
    ensures r in Run(db, cfg, ops).requests
    ensures forall i :: i in Run(db, cfg, ops).tasks && i.request == r ==> i in db.tasks
    decreases |ops|
  {
    hide Inv, Apply;
    if ops != [] {
      var before := Run(db, cfg, ops[..|ops| - 1]);
      RunAddsWithRequest(db, cfg, ops[..|ops| - 1], r);
      RunInv(db, cfg, ops[..|ops| - 1]);
      StepAddsWithRequest(before, cfg, ops[|ops| - 1]);
      FinishedIsFinal(before, cfg, ops[|ops| - 1]);
    }
  }

  // A pass settles a request all of whose tasks it leaves finished.
  lemma SettledWithTasks(db: Db, cfg: Settings, tenant: Id, now: Time, fate: TaskId -> Fate, r: RequestId)
    requires Inv(db, cfg) && r in db.requests && r.tenant == tenant
    requires forall i :: i in ProcessDeletions(db, cfg, tenant, now, fate).db.tasks && i.request == r
                         ==> ProcessDeletions(db, cfg, tenant, now, fate).db.tasks[i].status != Waiting
    ensures r in ProcessDeletions(db, cfg, tenant, now, fate).db.requests
    ensures ProcessDeletions(db, cfg, tenant, now, fate).db.requests[r].status != Waiting
  {
    hide ProcessDeletions, RowsOk, UniqueOk, ObjectsOk, RequestsOk, TasksOk, DueTasks, RemovedKeys, Attempt;
    var after := ProcessDeletions(db, cfg, tenant, now, fate).db;
    PassMoves(db, cfg, tenant, now, fate);
    if db.requests[r].status == Waiting {
      assert HasTask(db.tasks, r);
      var i :| i in db.tasks && i.request == r;
      assert i in after.tasks;
      if !AllCompleted(after.tasks, r) {
        var j :| j in after.tasks && j.request == r && after.tasks[j].status != Completed;
        assert after.tasks[j].status == Failed;
      }
    }
  }

  // Every deletion settles: as many passes over a tenant as the retry limit, far enough
  // apart, finish every deletion request of the tenant that was there before them, with
  // all its tasks, whatever the store does and whatever else happens between them.
  lemma {:induction false} EveryDeletionSettles(db: Db, cfg: Settings, tenant: Id, ops: seq<Op>, r: RequestId)
    requires Inv(db, cfg) && cfg.retryLimit >= 1 && r in db.requests && r.tenant == tenant
    requires var times := PassTimes(ops, tenant);
             && |times| >= cfg.retryLimit && Spaced(times)
             && forall i :: i in db.tasks && i.request == r ==> DueBy(db.tasks, i, times[0])
    ensures var after := Run(db, cfg, ops);
            && r in after.requests && after.requests[r].status != Waiting
            && forall i :: i in after.tasks && i.request == r ==> after.tasks[i].status != Waiting
    decreases |ops|
  {
    hide Inv, Apply, ProcessDeletions, Spaced, DueBy;
    var n := |ops| - 1;
    var op, before, after := ops[n], Run(db, cfg, ops[..n]), Run(db, cfg, ops);
    RunInv(db, cfg, ops[..n]);
    RunAddsWithRequest(db, cfg, ops, r);
    RunAddsWithRequest(db, cfg, ops[..n], r);
    forall i | i in after.tasks && i.request == r
      ensures after.tasks[i].status != Waiting
    {
      TaskSettles(db, cfg, tenant, ops, i);
    }
    if op.OpProcessDeletions? && op.tenant == tenant {
      ApplyPass(before, cfg, op);
      SettledWithTasks(before, cfg, tenant, op.now, op.fate, r);
    } else {
      assert PassTimes(ops, tenant) == PassTimes(ops[..n], tenant);
      EveryDeletionSettles(db, cfg, tenant, ops[..n], r);
      FinishedIsFinal(before, cfg, op);
    }
  }

  lemma WaitingBelowLimit(db: Db, cfg: Settings)
    requires Inv(db, cfg)
    ensures forall i :: i in db.tasks && db.tasks[i].status == Waiting ==> db.tasks[i].attempts < cfg.retryLimit
  {
    assert forall i :: i in db.tasks ==> TaskOk(i, db.tasks[i], db.requests, cfg.retryLimit);
  }

  // A completed request has only completed tasks, and a failed one a failed task.
  lemma RequestOutcomes(cfg: Settings, ops: seq<Op>, r: RequestId)
    requires cfg.retryLimit >= 1 && r in Run(EMPTY, cfg, ops).requests
    ensures var db := Run(EMPTY, cfg, ops);
            && (db.requests[r].status == Completed ==> forall i :: i in db.tasks && i.request == r ==>
                db.tasks[i].status == Completed)
            && (db.requests[r].status == Failed ==> exists i ::
                i in db.tasks && i.request == r && db.tasks[i].status == Failed)
  {
    hide Run;
    EmptyInv(cfg);
    RunInv(EMPTY, cfg, ops);
    hide RowsOk, UniqueOk, ObjectsOk, RequestsOk;
    var db := Run(EMPTY, cfg, ops);
    assert forall i :: i in db.tasks ==> TaskOk(i, db.tasks[i], db.requests, cfg.retryLimit);
  }

  // ----- Expiry ----------------------------------------------------------------------------------

  // An expired phrase survives the expiry pass exactly when its identifier already has
  // a deletion request.
  lemma ExpirySkipsExactlyReused(db: Db, tenant: Id, now: Time, p: Id)
    requires p in db.phrases && Expired(db.phrases[p], tenant, now)
    ensures var after := ExpireRawAudio(db, tenant, now).db;
            && p in after.phrases
            && (after.phrases[p].state != Erased <==> RequestId(tenant, PhraseAudio, p) in db.requests)
            && (after.phrases[p].state != Erased ==> after.phrases[p] == db.phrases[p])
  {
    hide ExpireRawAudio;
    ExpiryPhrases(db, tenant, now);
  }

  // Which cannot happen to identifiers that are not reused after a purge: the request
  // outlives the phrase's row.
  ghost predicate FreshOp(db: Db, op: Op) {
    op.OpReservePhrase? ==> RequestId(op.tenant, PhraseAudio, op.phraseDoc.phrase) !in db.requests
  }

  ghost predicate FreshRun(db: Db, cfg: Settings, ops: seq<Op>)
    decreases |ops|
  {
    ops == [] || (FreshRun(db, cfg, ops[..|ops| - 1]) && FreshOp(Run(db, cfg, ops[..|ops| - 1]), ops[|ops| - 1]))
  }

  ghost predicate FreshOk(db: Db) {
    forall p :: p in db.phrases && db.phrases[p].state != Erased ==>
      RequestId(db.phrases[p].tenant, PhraseAudio, p) !in db.requests
  }

  // Unerased phrases come from unerased phrases, or are new.
  ghost predicate PhrasesFrom(phrases: Phrases, phrases': Phrases) {
    forall p :: p in phrases' && phrases'[p].state != Erased ==>
      p in phrases && phrases[p].state != Erased && phrases[p].tenant == phrases'[p].tenant
  }

  lemma UploadPhraseFrom(db: Db, cfg: Settings, tenant: Id, p: Id, payload: Blob, now: Time, commits: bool)
    ensures PhrasesFrom(db.phrases, UploadPhrase(db, cfg, tenant, p, payload, now, commits).db.phrases)
  {
    hide PayloadFits;
  }

  lemma OtherOpsKeepPhrases(db: Db, cfg: Settings, op: Op)
    requires !ConcernsDeletion(op) && !op.OpReservePhrase? && !op.OpUploadPhrase?
    ensures Apply(db, cfg, op).phrases == db.phrases
  {
    hide UploadPhrase, ReservePhrase, RequestSongDeletion, ExpireRawAudio, ProcessDeletions, ProcessInterrupted;
    hide SameSource, ExistsLiveSource, ManifestFits, RequireEvidence, ScoreObjection, PayloadFits;
  }

  lemma RequestingKeepsFresh(db: Db, tenant: Id, s: Id, now: Time)
    requires FreshOk(db)
    ensures FreshOk(RequestSongDeletion(db, tenant, s, now).db)
  {
    var step := RequestSongDeletion(db, tenant, s, now);
    if step.answer.Created? {
      hide SongKeys, NewTasks, RequestSongDeletion;
      DeletionErases(db, tenant, s, now);
    }
  }

  lemma StepFresh(db: Db, cfg: Settings, op: Op)
    requires Inv(db, cfg) && FreshOk(db) && FreshOp(db, op)
    ensures FreshOk(Apply(db, cfg, op))
  {
    hide Inv, RequestSongDeletion, ExpireRawAudio, ProcessDeletions, CreateSong, UploadSource, ReserveAsset,
         UploadAsset, DueTasks, RemovedKeys;
    hide PublishManifest, CreateSession, ReservePhrase, UploadPhrase, WriteScore, Settle;
    if ConcernsDeletion(op) {
      match op
      case OpRequestSongDeletion(t, s, now) => RequestingKeepsFresh(db, t, s, now);
      case OpExpireRawAudio(t, now) => ExpiryIsChange(db, cfg, t, now);
      case OpProcessDeletions(t, now, fate) =>
        PassMoves(db, cfg, t, now, fate);
        PassRestricts(db, cfg, t, now, fate);
      case OpProcessInterrupted(_, _, _, _) =>
    } else {
      OtherOpsKeepTasks(db, cfg, op);
      match op
      case OpReservePhrase(t, doc, now) => ReservePhraseResult(db, cfg, t, doc, now);
      case OpUploadPhrase(t, p, payload, now, commits) => UploadPhraseFrom(db, cfg, t, p, payload, now, commits);
      case _ => OtherOpsKeepPhrases(db, cfg, op);
    }
  }

  lemma {:induction false} RunFresh(db: Db, cfg: Settings, ops: seq<Op>)
    requires Inv(db, cfg) && cfg.retryLimit >= 1 && FreshOk(db) && FreshRun(db, cfg, ops)
    ensures FreshOk(Run(db, cfg, ops))
    decreases |ops|
  {
    hide Inv, FreshOk, Apply, FreshOp;
    if ops != [] {
      RunFresh(db, cfg, ops[..|ops| - 1]);
      RunInv(db, cfg, ops[..|ops| - 1]);
      StepFresh(Run(db, cfg, ops[..|ops| - 1]), cfg, ops[|ops| - 1]);
    }
  }

  // ----- Scores ------------------------------------------------------------------------------------------

  // What `prevent_score_mutation` lets through: no change, or a privacy purge.
  predicate ScoreChangeAllowed(was: Score, row: Score) {
    || row == was
    || (row == was.(doc := None, sha := None, idem := None, deletedAt := row.deletedAt) && row.deletedAt.Some?)
  }

  predicate ManifestChangeAllowed(was: Manifest, row: Manifest) {
    || row == was
    || (row == was.(doc := None, sha := None, deletedAt := row.deletedAt) && row.deletedAt.Some?)
  }

  ghost predicate RecordsKept(db: Db, after: Db) {
    && db.next <= after.next
    && (forall c :: c in after.scores ==>
        (c in db.scores && ScoreChangeAllowed(db.scores[c], after.scores[c])) || db.next <= c < after.next)
    && (forall m :: m in after.manifests ==>
        (m in db.manifests && ManifestChangeAllowed(db.manifests[m], after.manifests[m])) || db.next <= m < after.next)
  }

  lemma WriteScoreAddsRecord(db: Db, tenant: Id, doc: ScoreDoc, idem: string, m: Id, now: Time)
    ensures RecordsKept(db, WriteScore(db, tenant, doc, idem, m, now).db)
  {
    hide WriteScore;
    WriteScoreResult(db, tenant, doc, idem, m, now);
  }

  lemma PublishAddsRecord(db: Db, tenant: Id, s: Id, doc: ManifestDoc, now: Time)
    ensures RecordsKept(db, PublishManifest(db, tenant, s, doc, now).db)
  {
    hide PublishManifest;
    PublishManifestResult(db, tenant, s, doc, now);
  }

  lemma OtherOpsKeepRecords(db: Db, cfg: Settings, op: Op)
    requires !ConcernsDeletion(op) && !op.OpWriteScore? && !op.OpPublishManifest?
    ensures RecordsKept(db, Apply(db, cfg, op))
  {
    hide CreateSong, UploadSource, ReserveAsset, UploadAsset, CreateSession, ReservePhrase, UploadPhrase;
    match op
    case OpCreateSong(t, sha, length, media) => CreateSongResult(db, t, sha, length, media);
    case OpReserveAsset(t, q, kind, sha, length, mediaType, release) =>
      ReserveAssetResult(db, t, q, kind, sha, length, mediaType, release);
    case OpCreateSession(t, q, m, calibration) => SessionKeepsRecords(db, t, q, m, calibration);
    case OpReservePhrase(t, doc, now) => ReservePhraseResult(db, cfg, t, doc, now);
    case OpUploadSource(t, q, payload, screening, now, commits) =>
      SourceKeepsRecords(db, cfg, t, q, payload, screening, now, commits);
    case OpUploadAsset(t, q, payload, now, commits) => AssetKeepsRecords(db, cfg, t, q, payload, now, commits);
    case OpUploadPhrase(t, q, payload, now, commits) => PhraseKeepsRecords(db, cfg, t, q, payload, now, commits);
  }

  lemma SessionKeepsRecords(db: Db, tenant: Id, s: Id, m: Id, calibration: Version)
    ensures RecordsKept(db, CreateSession(db, tenant, s, m, calibration).db)
  {
    var after := CreateSession(db, tenant, s, m, calibration).db;
    assert after == db.(sessions := after.sessions, next := after.next);
  }

  lemma SourceKeepsRecords(db: Db, cfg: Settings, tenant: Id, s: Id, payload: Blob, screening: Screening, now: Time,
                           commits: bool)
    ensures RecordsKept(db, UploadSource(db, cfg, tenant, s, payload, screening, now, commits).db)
  {
    hide PayloadFits;
    var after := UploadSource(db, cfg, tenant, s, payload, screening, now, commits).db;
    assert after == db.(songs := after.songs, store := after.store);
  }

  lemma AssetKeepsRecords(db: Db, cfg: Settings, tenant: Id, a: Id, payload: Blob, now: Time, commits: bool)
    ensures RecordsKept(db, UploadAsset(db, cfg, tenant, a, payload, now, commits).db)
  {
    hide PayloadFits;
    var after := UploadAsset(db, cfg, tenant, a, payload, now, commits).db;
    assert after == db.(assets := after.assets, store := after.store);
  }

  lemma PhraseKeepsRecords(db: Db, cfg: Settings, tenant: Id, p: Id, payload: Blob, now: Time, commits: bool)
    ensures RecordsKept(db, UploadPhrase(db, cfg, tenant, p, payload, now, commits).db)
  {
    hide PayloadFits;
    var after := UploadPhrase(db, cfg, tenant, p, payload, now, commits).db;
    assert after == db.(phrases := after.phrases, store := after.store);
  }

  lemma RequestingKeepsRecords(db: Db, tenant: Id, s: Id, now: Time)
    ensures RecordsKept(db, RequestSongDeletion(db, tenant, s, now).db)
  {
    var step := RequestSongDeletion(db, tenant, s, now);
    if step.answer.Created? {
      hide SongKeys, NewTasks, RequestSongDeletion;
      DeletionErases(db, tenant, s, now);
    }
  }

  // Score and manifest records only ever change by being purged.
  lemma RecordsAreImmutable(db: Db, cfg: Settings, op: Op)
    requires Inv(db, cfg)
    ensures RecordsKept(db, Apply(db, cfg, op))
  {
    hide Inv, RequestSongDeletion, ExpireRawAudio, ProcessDeletions, CreateSong, UploadSource, ReserveAsset,
         UploadAsset, DueTasks, RemovedKeys;
    hide PublishManifest, CreateSession, ReservePhrase, UploadPhrase, WriteScore, Purging;
    match op
    case OpRequestSongDeletion(t, s, now) => RequestingKeepsRecords(db, t, s, now);
    case OpExpireRawAudio(t, now) => ExpiryIsChange(db, cfg, t, now);
    case OpProcessDeletions(t, now, fate) => PassRestricts(db, cfg, t, now, fate);
    case OpProcessInterrupted(_, _, _, _) =>
    case OpWriteScore(t, doc, idem, m, now) => WriteScoreAddsRecord(db, t, doc, idem, m, now);
    case OpPublishManifest(t, q, doc, now) => PublishAddsRecord(db, t, q, doc, now);
    case _ => OtherOpsKeepRecords(db, cfg, op);
  }

  lemma {:induction false} RunKeepsRecords(db: Db, cfg: Settings, ops: seq<Op>)
    requires Inv(db, cfg) && cfg.retryLimit >= 1
    ensures RecordsKept(db, Run(db, cfg, ops))
    decreases |ops|
  {
    hide Inv, Apply;
    if ops != [] {
      var before := Run(db, cfg, ops[..|ops| - 1]);
      RunKeepsRecords(db, cfg, ops[..|ops| - 1]);
      RunInv(db, cfg, ops[..|ops| - 1]);
      RecordsAreImmutable(before, cfg, ops[|ops| - 1]);
    }
  }

  // In every reachable state a live score's resources belong together, its manifest is
  // accepted and is its session's, its versions agree along the chain, both pieces
  // of evidence are live, stored and still in the object store, and no other score
  // of the tenant carries its idempotency key.
  lemma LiveScoreIsBound(cfg: Settings, ops: seq<Op>, c: Id)
    requires cfg.retryLimit >= 1
    requires c in Run(EMPTY, cfg, ops).scores && Run(EMPTY, cfg, ops).scores[c].deletedAt.None?
    ensures var db := Run(EMPTY, cfg, ops);
            var row := db.scores[c];
            && row.doc.Some? && row.sha == row.doc && row.idem.Some?
            && LiveSong(db, row.tenant, row.song) && LiveSession(db, row.tenant, row.session)
            && LivePhrase(db, row.tenant, row.phrase) && LiveManifest(db, row.tenant, row.manifest)
            && var session, phrase, manifest := db.sessions[row.session], db.phrases[row.phrase],
               db.manifests[row.manifest];
            && session.song == phrase.song == manifest.song == row.song && phrase.session == row.session
            && session.manifest == row.manifest && manifest.doc.Some? && manifest.doc.value.gate == GateAccepted
            && session.calibration == phrase.calibration == manifest.calibration == row.calibration ==
               row.doc.value.calibration
            && manifest.scoreVersion == row.scoreVersion
            && RequireEvidence(db, row.tenant, row.doc.value) == Existing
            && (forall d :: d in db.scores && db.scores[d].tenant == row.tenant && db.scores[d].idem == row.idem ==>
                d == c)
  {
    hide Run, DeletionsOk, ObjectsOk, SongsUnique, ManifestsUnique, PhrasesUnique;
    EmptyInv(cfg);
    RunInv(EMPTY, cfg, ops);
    var db := Run(EMPTY, cfg, ops);
    var row := db.scores[c];
    assert ScoreOk(c, row, db.phrases, db.sessions, db.manifests, db.songs, db.next);
    assert PhraseOk(row.phrase, db.phrases[row.phrase], db.sessions, db.songs);
    assert SessionOk(row.session, db.sessions[row.session], db.manifests, db.songs, db.next);
    assert ManifestOk(row.manifest, db.manifests[row.manifest], db.songs, db.next);
    BackedIsRequired(db, row.tenant, row.doc.value);
    forall d | d in db.scores && db.scores[d].tenant == row.tenant && db.scores[d].idem == row.idem
      ensures d == c
    {
      assert SameScoreKey(db.scores[d], row.tenant, row.idem.value);
    }
  }

  lemma BackedIsRequired(db: Db, tenant: Id, doc: ScoreDoc)
    requires Backed(db.assets, db.store, tenant, doc, Transport, doc.transport)
    requires Backed(db.assets, db.store, tenant, doc, UserFeatures, doc.userFeatures)
    ensures RequireEvidence(db, tenant, doc) == Existing
  {
    EvidenceFromBacked(db, tenant, doc, Transport, doc.transport);
    EvidenceFromBacked(db, tenant, doc, UserFeatures, doc.userFeatures);
  }

  lemma EvidenceFromBacked(db: Db, tenant: Id, doc: ScoreDoc, kind: AssetKind, digest: Option<Blob>)
    requires Backed(db.assets, db.store, tenant, doc, kind, digest)
    ensures EvidenceKnown(db, tenant, doc, kind, digest.value) && EvidenceStored(db, tenant, doc, kind, digest.value)
  {
    var a :| a in db.assets && EvidenceMatches(db.assets[a], tenant, doc, kind, digest.value)
             && db.assets[a].state == Stored && db.assets[a].key.Some? && db.assets[a].key.value in db.store;
    assert Available(db, db.assets[a]);
  }

  // Guards of the source that never act: a stored object never conflicts with the
  // bytes being uploaded, and no row that still has its idempotency key is deleted.
  lemma StoreNeverRefuses(db: Db, cfg: Settings, op: Op)
    requires Inv(db, cfg)
    ensures !Perform(db, cfg, op).answer.StoreRefused?
  {
    hide Inv, UploadSource, UploadAsset, UploadPhrase;
    match op
    case OpUploadSource(t, s, payload, screening, now, commits) =>
      UploadSourceInv(db, cfg, t, s, payload, screening, now, commits);
    case OpUploadAsset(t, a, payload, now, commits) => UploadAssetInv(db, cfg, t, a, payload, now, commits);
    case OpUploadPhrase(t, p, payload, now, commits) => UploadPhraseInv(db, cfg, t, p, payload, now, commits);
    case _ => OtherOpsNeverRefuse(db, cfg, op);
  }

  lemma OtherOpsNeverRefuse(db: Db, cfg: Settings, op: Op)
    requires !op.OpUploadSource? && !op.OpUploadAsset? && !op.OpUploadPhrase?
    ensures !Perform(db, cfg, op).answer.StoreRefused?
  {
    hide UploadSource, UploadAsset, UploadPhrase, SameSource, ExistsLiveSource, ManifestFits, PayloadFits, SongKeys;
  }

  lemma KeyedRowsAreLive(db: Db, cfg: Settings)
    requires Inv(db, cfg)
    ensures forall c :: c in db.scores && db.scores[c].idem.Some? ==> db.scores[c].deletedAt.None?
    ensures forall p :: p in db.phrases && db.phrases[p].idem.Some? ==> db.phrases[p].deletedAt.None?
  {
    hide UniqueOk, DeletionsOk, ObjectsOk, SongsOk, AssetsOk, ManifestsOk, SessionsOk, EvidenceOk;
    assert forall c :: c in db.scores ==>
           ScoreOk(c, db.scores[c], db.phrases, db.sessions, db.manifests, db.songs, db.next);
    assert forall p :: p in db.phrases ==> PhraseOk(p, db.phrases[p], db.sessions, db.songs);
  }
}
