// The maintenance worker: for every tenant in turn it expires audio, then processes
// deletions.
module ControlPlaneMaintenance {
  import opened ControlPlane
  import opened ControlPlaneInvariant
  import opened ControlPlaneDeletion
  import opened ControlPlaneTheorems
  import opened ControlPlaneRuns
  import opened Options

  // ----- A round ------------------------------------------------------------------------

  // One tenant: expire, then process.
  function Maintain(db: Db, cfg: Settings, tenant: Id, expireAt: Time, processAt: Time, fate: TaskId -> Fate): Db {
    ProcessDeletions(ExpireRawAudio(db, tenant, expireAt).db, cfg, tenant, processAt, fate).db
  }

  datatype Summary = Summary(expired: nat, completed: nat, failed: nat)

  function Done(answer: Answer): nat {
    if answer.Counted? then answer.done else 0
  }

  function Undone(answer: Answer): nat {
    if answer.Counted? then answer.failed else 0
  }

  // Every tenant in turn, reading the clock for each half.
  function MaintainAll(
    db: Db, cfg: Settings, tenants: seq<Id>, expireAt: seq<Time>, processAt: seq<Time>, fate: TaskId -> Fate
  ): (Db, Summary)
    requires |expireAt| == |processAt| == |tenants|
  {
    var n := |tenants|;
    if n == 0 then (db, Summary(0, 0, 0))
    else
      var (before, sum) := MaintainAll(db, cfg, tenants[..n - 1], expireAt[..n - 1], processAt[..n - 1], fate);
      var first := ExpireRawAudio(before, tenants[n - 1], expireAt[n - 1]);
      var second := ProcessDeletions(first.db, cfg, tenants[n - 1], processAt[n - 1], fate);
      (second.db, Summary(sum.expired + Done(first.answer), sum.completed + Done(second.answer),
                          sum.failed + Undone(second.answer)))
  }

  function MaintenanceOps(
    tenants: seq<Id>, expireAt: seq<Time>, processAt: seq<Time>, fate: TaskId -> Fate
  ): seq<Op>
    requires |expireAt| == |processAt| == |tenants|
  {
    var n := |tenants|;
    if n == 0 then []
    else
      MaintenanceOps(tenants[..n - 1], expireAt[..n - 1], processAt[..n - 1], fate)
      + [OpExpireRawAudio(tenants[n - 1], expireAt[n - 1]), OpProcessDeletions(tenants[n - 1], processAt[n - 1], fate)]
  }

  // A round is a run, so what holds of every run holds of it.
  lemma {:induction false} MaintenanceIsRun(
    db: Db, cfg: Settings, tenants: seq<Id>, expireAt: seq<Time>, processAt: seq<Time>, fate: TaskId -> Fate
  )
    requires |expireAt| == |processAt| == |tenants|
    ensures MaintainAll(db, cfg, tenants, expireAt, processAt, fate).0
            == Run(db, cfg, MaintenanceOps(tenants, expireAt, processAt, fate))
    decreases |tenants|
  {
    hide ExpireRawAudio, ProcessDeletions;
    var n := |tenants|;
    if n > 0 {
      MaintenanceIsRun(db, cfg, tenants[..n - 1], expireAt[..n - 1], processAt[..n - 1], fate);
      var before := MaintenanceOps(tenants[..n - 1], expireAt[..n - 1], processAt[..n - 1], fate);
      var first, second := OpExpireRawAudio(tenants[n - 1], expireAt[n - 1]),
          OpProcessDeletions(tenants[n - 1], processAt[n - 1], fate);
      var ops := MaintenanceOps(tenants, expireAt, processAt, fate);
      assert ops[..|ops| - 1] == before + [first];
      assert (before + [first])[..|before|] == before;
      assert Run(db, cfg, before + [first]) == Apply(Run(db, cfg, before), cfg, first);
    }
  }

  // ----- The worker settles deletions -----------------------------------------------------

  datatype Round = Round(tenants: seq<Id>, expireAt: seq<Time>, processAt: seq<Time>, fate: TaskId -> Fate)

  ghost predicate ValidRound(round: Round) {
    |round.expireAt| == |round.processAt| == |round.tenants|
  }

  function WorkerOps(rounds: seq<Round>): seq<Op>
    requires forall k :: 0 <= k < |rounds| ==> ValidRound(rounds[k])
  {
    if rounds == [] then []
    else
      var n := |rounds| - 1;
      assert ValidRound(rounds[n]);
      WorkerOps(rounds[..n]) + MaintenanceOps(rounds[n].tenants, rounds[n].expireAt, rounds[n].processAt,
                                              rounds[n].fate)
  }

  lemma {:induction false} PassTimesJoin(a: seq<Op>, b: seq<Op>, tenant: Id)
    ensures PassTimes(a + b, tenant) == PassTimes(a, tenant) + PassTimes(b, tenant)
    decreases |b|
  {
    if b == [] {
      assert a + b == a;
    } else {
      assert (a + b)[..|a + b| - 1] == a + b[..|b| - 1];
      PassTimesJoin(a, b[..|b| - 1], tenant);
    }
  }

  // Over its rounds the worker passes over a tenant as often as the rounds list it.
  lemma {:induction false} WorkerPasses(rounds: seq<Round>, tenant: Id, times: seq<Time>)
    requires |times| == |rounds|
    requires forall k :: 0 <= k < |rounds| ==>
               && ValidRound(rounds[k])
               && PassTimes(MaintenanceOps(rounds[k].tenants, rounds[k].expireAt, rounds[k].processAt,
                                           rounds[k].fate), tenant) == [times[k]]
    ensures PassTimes(WorkerOps(rounds), tenant) == times
    decreases |rounds|
  {
    hide PassTimes, MaintenanceOps;
    if rounds == [] {
      assert PassTimes([], tenant) == [] by {
        NoPasses(tenant);
      }
    } else {
      var n := |rounds| - 1;
      WorkerPasses(rounds[..n], tenant, times[..n]);
      PassTimesJoin(WorkerOps(rounds[..n]),
                    MaintenanceOps(rounds[n].tenants, rounds[n].expireAt, rounds[n].processAt, rounds[n].fate), tenant);
      assert times == times[..n] + [times[n]];
    }
  }

  lemma NoPasses(tenant: Id)
    ensures PassTimes([], tenant) == []
  {
  }

  // A round that visits a tenant once passes over it once, at the time it gets to it.
  lemma {:induction false} VisitedOnce(round: Round, tenant: Id, at: nat)
    requires ValidRound(round) && at < |round.tenants|
    requires forall k :: 0 <= k < |round.tenants| ==> (round.tenants[k] == tenant <==> k == at)
    ensures PassTimes(MaintenanceOps(round.tenants, round.expireAt, round.processAt, round.fate), tenant) ==
            [round.processAt[at]]
  {
    VisitedUpTo(round, tenant, at, |round.tenants|);
    assert round.tenants[..|round.tenants|] == round.tenants && round.expireAt[..|round.tenants|] == round.expireAt;
    assert round.processAt[..|round.tenants|] == round.processAt;
  }

  lemma LastVisit(tenants: seq<Id>, expireAt: seq<Time>, processAt: seq<Time>, fate: TaskId -> Fate, n: nat)
    requires 0 < n <= |tenants| && |expireAt| == |processAt| == |tenants|
    ensures MaintenanceOps(tenants[..n], expireAt[..n], processAt[..n], fate) ==
            MaintenanceOps(tenants[..n - 1], expireAt[..n - 1], processAt[..n - 1], fate)
            + [OpExpireRawAudio(tenants[n - 1], expireAt[n - 1]),
               OpProcessDeletions(tenants[n - 1], processAt[n - 1], fate)]
  {
    assert tenants[..n][..n - 1] == tenants[..n - 1] && expireAt[..n][..n - 1] == expireAt[..n - 1];
    assert processAt[..n][..n - 1] == processAt[..n - 1];
  }

  lemma VisitTimes(t: Id, expireAt: Time, processAt: Time, fate: TaskId -> Fate, tenant: Id)
    ensures PassTimes([OpExpireRawAudio(t, expireAt), OpProcessDeletions(t, processAt, fate)], tenant) ==
            if t == tenant then [processAt] else []
  {
    var first, second := OpExpireRawAudio(t, expireAt), OpProcessDeletions(t, processAt, fate);
    assert [first, second][..1] == [first];
    assert PassTimes([first], tenant) == [];
  }

  lemma {:induction false} VisitedUpTo(round: Round, tenant: Id, at: nat, n: nat)
    requires ValidRound(round) && at < |round.tenants| && n <= |round.tenants|
    requires forall k :: 0 <= k < |round.tenants| ==> (round.tenants[k] == tenant <==> k == at)
    ensures PassTimes(MaintenanceOps(round.tenants[..n], round.expireAt[..n], round.processAt[..n], round.fate), tenant)
            == if at < n then [round.processAt[at]] else []
  {
    if n == 0 {
    } else {
      hide PassTimes, MaintenanceOps;
      var t, e, p := round.tenants[n - 1], round.expireAt[n - 1], round.processAt[n - 1];
      VisitedUpTo(round, tenant, at, n - 1);
      LastVisit(round.tenants, round.expireAt, round.processAt, round.fate, n);
      VisitTimes(t, e, p, round.fate, tenant);
      PassTimesJoin(MaintenanceOps(round.tenants[..n - 1], round.expireAt[..n - 1], round.processAt[..n - 1],
                                   round.fate),
                    [OpExpireRawAudio(t, e), OpProcessDeletions(t, p, round.fate)], tenant);
    }
  }

  // As many rounds as the retry limit, each getting to the tenant once and at least the
  // longest back-off after the round before, settle every deletion of the tenant that was
  // there before them.
  lemma WorkerSettles(db: Db, cfg: Settings, tenant: Id, rounds: seq<Round>, at: seq<nat>, times: seq<Time>,
                      r: RequestId)
    requires Inv(db, cfg) && cfg.retryLimit >= 1 && r in db.requests && r.tenant == tenant
    requires |rounds| == |at| == |times| >= cfg.retryLimit && Spaced(times)
    requires forall k :: 0 <= k < |rounds| ==>
               && ValidRound(rounds[k]) && at[k] < |rounds[k].tenants| && rounds[k].processAt[at[k]] == times[k]
               && forall j :: 0 <= j < |rounds[k].tenants| ==> (rounds[k].tenants[j] == tenant <==> j == at[k])
    requires forall i :: i in db.tasks && i.request == r ==> DueBy(db.tasks, i, times[0])
    ensures var after := Run(db, cfg, WorkerOps(rounds));
            && r in after.requests && after.requests[r].status != Waiting
            && forall i :: i in after.tasks && i.request == r ==> after.tasks[i].status != Waiting
  {
    hide Inv, Run, PassTimes, MaintenanceOps, DueBy;
    forall k | 0 <= k < |rounds|
      ensures PassTimes(MaintenanceOps(rounds[k].tenants, rounds[k].expireAt, rounds[k].processAt, rounds[k].fate),
                        tenant) == [times[k]]
    {
      VisitedOnce(rounds[k], tenant, at[k]);
    }
    WorkerPasses(rounds, tenant, times);
    EveryDeletionSettles(db, cfg, tenant, WorkerOps(rounds), r);
  }

  // ----- The clock ------------------------------------------------------------------------

  // Tasks that were never tried are due by `at`.
  ghost predicate ClockOk(tasks: Tasks, at: Time) {
    forall i :: i in tasks && tasks[i].attempts == 0 ==> tasks[i].status != Failed && tasks[i].nextAttempt <= at
  }

  // Nothing was requested or expired later than that.
  ghost predicate OpBy(op: Op, at: Time) {
    op.OpRequestSongDeletion? || op.OpExpireRawAudio? ==> op.now <= at
  }

  lemma ExpiryKeepsClock(db: Db, cfg: Settings, tenant: Id, now: Time, at: Time)
    requires Inv(db, cfg) && ClockOk(db.tasks, at) && now <= at
    ensures ClockOk(ExpireRawAudio(db, tenant, now).db.tasks, at)
  {
    hide Inv, ExpireRawAudio;
    ExpiryIsChange(db, cfg, tenant, now);
  }

  lemma PassKeepsClock(db: Db, cfg: Settings, tenant: Id, now: Time, fate: TaskId -> Fate, at: Time)
    requires ClockOk(db.tasks, at)
    ensures ClockOk(ProcessDeletions(db, cfg, tenant, now, fate).db.tasks, at)
  {
    hide ProcessDeletions, DueTasks, RemovedKeys, Backoff;
    PassMoves(db, cfg, tenant, now, fate);
  }

  lemma StepClock(db: Db, cfg: Settings, op: Op, at: Time)
    requires Inv(db, cfg) && ClockOk(db.tasks, at) && OpBy(op, at)
    ensures ClockOk(Apply(db, cfg, op).tasks, at)
  {
    hide Inv, ClockOk, RequestSongDeletion, ExpireRawAudio, ProcessDeletions;
    match op
    case OpRequestSongDeletion(t, s, now) => RequestingKeepsClock(db, t, s, now, at);
    case OpExpireRawAudio(t, now) => ExpiryKeepsClock(db, cfg, t, now, at);
    case OpProcessDeletions(t, now, fate) => PassKeepsClock(db, cfg, t, now, fate, at);
    case OpProcessInterrupted(_, _, _, _) =>
      hide DueTasks, RemovedKeys;
    case _ =>
      hide Apply;
      OtherOpsKeepTasks(db, cfg, op);
  }

  lemma RequestingKeepsClock(db: Db, tenant: Id, s: Id, now: Time, at: Time)
    requires ClockOk(db.tasks, at) && now <= at
    ensures ClockOk(RequestSongDeletion(db, tenant, s, now).db.tasks, at)
  {
    hide RequestSongDeletion, SongKeys, SongRowsErased, TaskIds;
    RequestSongDeletionResult(db, tenant, s, now);
    if RequestSongDeletion(db, tenant, s, now).answer.Created? {
      DeletionErases(db, tenant, s, now);
    }
  }

  lemma {:induction false} RunClock(db: Db, cfg: Settings, ops: seq<Op>, at: Time)
    requires Inv(db, cfg) && cfg.retryLimit >= 1 && ClockOk(db.tasks, at)
    requires forall j :: 0 <= j < |ops| ==> OpBy(ops[j], at)
    ensures ClockOk(Run(db, cfg, ops).tasks, at)
    decreases |ops|
  {
    hide Inv, Apply, ClockOk, OpBy;
    if ops != [] {
      RunClock(db, cfg, ops[..|ops| - 1], at);
      RunInv(db, cfg, ops[..|ops| - 1]);
      StepClock(Run(db, cfg, ops[..|ops| - 1]), cfg, ops[|ops| - 1], at);
    }
  }

  // ----- What a round leaves of expired audio ---------------------------------------------

  // Of the tenants already visited: phrases that had expired are erased,
  ghost predicate ErasedBy(phrases: Phrases, tenants: seq<Id>, at: Time) {
    forall p :: p in phrases && phrases[p].tenant in tenants && phrases[p].expiresAt <= at ==>
      phrases[p].state == Erased
  }

  // and what is left to delete has been tried.
  ghost predicate TriedBy(tasks: Tasks, tenants: seq<Id>) {
    forall i :: i in tasks && i.request.tenant in tenants && tasks[i].status != Completed ==> tasks[i].attempts >= 1
  }

  // A round adds no phrase.
  ghost predicate RowsFrom(phrases: Phrases, phrases': Phrases) {
    forall p :: p in phrases' ==>
      p in phrases && phrases'[p].tenant == phrases[p].tenant && phrases'[p].expiresAt == phrases[p].expiresAt
  }

  // The clock does not go back during the round.
  ghost predicate Ticking(at: Time, expireAt: seq<Time>, processAt: seq<Time>)
    requires |expireAt| == |processAt|
  {
    && (forall k :: 0 <= k < |expireAt| ==> at <= expireAt[k] <= processAt[k])
    && (forall k :: 0 < k < |expireAt| ==> processAt[k - 1] <= expireAt[k])
  }

  lemma UnerasedIsLive(db: Db, cfg: Settings, p: Id)
    requires Inv(db, cfg)
    ensures p in db.phrases && db.phrases[p].state != Erased ==> db.phrases[p].deletedAt.None?
  {
    if p in db.phrases {
      assert PhraseOk(p, db.phrases[p], db.sessions, db.songs);
    }
  }

  lemma ErasedOwnsNothing(db: Db, cfg: Settings, p: Id)
    requires Inv(db, cfg) && p in db.phrases && db.phrases[p].state == Erased
    ensures db.phrases[p].key.None?
  {
    assert PhraseOk(p, db.phrases[p], db.sessions, db.songs);
  }

  // Expiry erases every phrase that has expired.
  lemma ExpiryErases(db: Db, cfg: Settings, tenant: Id, now: Time, p: Id)
    requires Inv(db, cfg) && FreshOk(db)
    requires var after := ExpireRawAudio(db, tenant, now).db;
             p in after.phrases && after.phrases[p].tenant == tenant && after.phrases[p].expiresAt <= now
    ensures ExpireRawAudio(db, tenant, now).db.phrases[p].state == Erased
  {
    UnerasedIsLive(db, cfg, p);
    hide Inv, ExpireRawAudio;
    ExpiryPhrases(db, tenant, now);
  }

  lemma PassKeepsPhrase(db: Db, cfg: Settings, tenant: Id, now: Time, fate: TaskId -> Fate, p: Id)
    requires Inv(db, cfg) && p in ProcessDeletions(db, cfg, tenant, now, fate).db.phrases
    ensures p in db.phrases && ProcessDeletions(db, cfg, tenant, now, fate).db.phrases[p] == db.phrases[p]
  {
    hide Inv, ProcessDeletions, Purging;
    PassRestricts(db, cfg, tenant, now, fate);
  }

  lemma MaintainErases(
    db: Db, cfg: Settings, tenants: seq<Id>, tenant: Id, expireAt: Time, processAt: Time, fate: TaskId -> Fate, at: Time
  )
    requires Inv(db, cfg) && cfg.retryLimit >= 1 && FreshOk(db) && ErasedBy(db.phrases, tenants, at) && at <= expireAt
    ensures var after := Maintain(db, cfg, tenant, expireAt, processAt, fate);
            ErasedBy(after.phrases, tenants + [tenant], at) && RowsFrom(db.phrases, after.phrases)
  {
    hide Inv, ExpireRawAudio, ProcessDeletions;
    var expired := ExpireRawAudio(db, tenant, expireAt).db;
    var after := Maintain(db, cfg, tenant, expireAt, processAt, fate);
    ExpireRawAudioInv(db, cfg, tenant, expireAt);
    ExpiryPhrases(db, tenant, expireAt);
    forall p | p in after.phrases
      ensures p in db.phrases && after.phrases[p].tenant == db.phrases[p].tenant
              && after.phrases[p].expiresAt == db.phrases[p].expiresAt
      ensures after.phrases[p].tenant in tenants + [tenant] && after.phrases[p].expiresAt <= at ==>
                after.phrases[p].state == Erased
    {
      PassKeepsPhrase(expired, cfg, tenant, processAt, fate, p);
      if after.phrases[p].tenant == tenant && after.phrases[p].expiresAt <= at {
        ExpiryErases(db, cfg, tenant, expireAt, p);
      }
    }
  }

  // Expiry touches no task, and dates the ones it creates now.
  lemma ExpiryOnlyAdds(db: Db, cfg: Settings, tenants: seq<Id>, tenant: Id, now: Time)
    requires Inv(db, cfg) && ClockOk(db.tasks, now) && TriedBy(db.tasks, tenants)
    ensures var after := ExpireRawAudio(db, tenant, now).db;
            && ClockOk(after.tasks, now)
            && forall i ::
                 i in after.tasks && i.request.tenant in tenants && i.request.tenant != tenant
                     && after.tasks[i].status != Completed
                 ==> after.tasks[i].attempts >= 1
  {
    hide Inv, ExpireRawAudio, Expiring;
    ExpiryIsChange(db, cfg, tenant, now);
  }

  lemma PassTries(db: Db, cfg: Settings, tenants: seq<Id>, tenant: Id, now: Time, fate: TaskId -> Fate)
    requires ClockOk(db.tasks, now)
    requires forall i ::
               i in db.tasks && i.request.tenant in tenants && i.request.tenant != tenant
                   && db.tasks[i].status != Completed
               ==> db.tasks[i].attempts >= 1
    ensures var after := ProcessDeletions(db, cfg, tenant, now, fate).db;
            TriedBy(after.tasks, tenants + [tenant]) && ClockOk(after.tasks, now)
  {
    hide ProcessDeletions, DueTasks, RemovedKeys, Backoff;
    var after := ProcessDeletions(db, cfg, tenant, now, fate).db;
    PassMoves(db, cfg, tenant, now, fate);
    forall i | i in after.tasks && i.request.tenant in tenants + [tenant] && after.tasks[i].status != Completed
      ensures after.tasks[i].attempts >= 1
    {
      assert i.request.tenant != tenant ==> i.request.tenant in tenants;
    }
  }

  lemma MaintainTries(
    db: Db, cfg: Settings, tenants: seq<Id>, tenant: Id, expireAt: Time, processAt: Time, fate: TaskId -> Fate
  )
    requires Inv(db, cfg) && cfg.retryLimit >= 1 && ClockOk(db.tasks, expireAt) && expireAt <= processAt
    requires TriedBy(db.tasks, tenants)
    ensures var after := Maintain(db, cfg, tenant, expireAt, processAt, fate);
            TriedBy(after.tasks, tenants + [tenant]) && ClockOk(after.tasks, processAt)
  {
    hide Inv, ExpireRawAudio, ProcessDeletions, ClockOk, TriedBy;
    var expired := ExpireRawAudio(db, tenant, expireAt).db;
    ExpiryOnlyAdds(db, cfg, tenants, tenant, expireAt);
    LaterClock(expired.tasks, expireAt, processAt);
    PassTries(expired, cfg, tenants, tenant, processAt, fate);
  }

  lemma NobodyVisited(phrases: Phrases, tasks: Tasks, at: Time)
    ensures ErasedBy(phrases, [], at) && TriedBy(tasks, []) && RowsFrom(phrases, phrases)
  {
  }

  lemma RowsFromJoin(a: Phrases, b: Phrases, c: Phrases)
    requires RowsFrom(a, b) && RowsFrom(b, c)
    ensures RowsFrom(a, c)
  {
  }

  // Whatever the store does, after a round every visited tenant's phrase that had expired
  // when it started is erased or gone, and every deletion of theirs that is not completed
  // has been tried.
  lemma {:induction false} MaintenanceErasesEveryTenant(
    db: Db, cfg: Settings, tenants: seq<Id>, expireAt: seq<Time>, processAt: seq<Time>, fate: TaskId -> Fate, at: Time
  )
    requires Inv(db, cfg) && cfg.retryLimit >= 1 && FreshOk(db) && ClockOk(db.tasks, at)
    requires |expireAt| == |processAt| == |tenants| && Ticking(at, expireAt, processAt)
    ensures var after := MaintainAll(db, cfg, tenants, expireAt, processAt, fate).0;
            && Inv(after, cfg) && FreshOk(after) && RowsFrom(db.phrases, after.phrases)
            && ErasedBy(after.phrases, tenants, at) && TriedBy(after.tasks, tenants)
            && ClockOk(after.tasks, if tenants == [] then at else processAt[|tenants| - 1])
    decreases |tenants|
  {
    hide Inv, FreshOk, ErasedBy, TriedBy, RowsFrom, ClockOk, ExpireRawAudio, ProcessDeletions;
    var n := |tenants|;
    if n == 0 {
      NobodyVisited(db.phrases, db.tasks, at);
      assert tenants == [];
    } else {
      var before := MaintainAll(db, cfg, tenants[..n - 1], expireAt[..n - 1], processAt[..n - 1], fate).0;
      MaintenanceErasesEveryTenant(db, cfg, tenants[..n - 1], expireAt[..n - 1], processAt[..n - 1], fate, at);
      var t := tenants[n - 1];
      var first, second := OpExpireRawAudio(t, expireAt[n - 1]), OpProcessDeletions(t, processAt[n - 1], fate);
      var expired := Apply(before, cfg, first);
      StepInv(before, cfg, first);
      StepFresh(before, cfg, first);
      StepInv(expired, cfg, second);
      StepFresh(expired, cfg, second);
      LaterClock(before.tasks, if n == 1 then at else processAt[n - 2], expireAt[n - 1]);
      MaintainErases(before, cfg, tenants[..n - 1], t, expireAt[n - 1], processAt[n - 1], fate, at);
      MaintainTries(before, cfg, tenants[..n - 1], t, expireAt[n - 1], processAt[n - 1], fate);
      RowsFromJoin(db.phrases, before.phrases, MaintainAll(db, cfg, tenants, expireAt, processAt, fate).0.phrases);
      assert tenants == tenants[..n - 1] + [t];
    }
  }

  lemma LaterClock(tasks: Tasks, at: Time, later: Time)
    requires ClockOk(tasks, at) && at <= later
    ensures ClockOk(tasks, later)
  {
  }

  // ----- Stored audio -----------------------------------------------------------------------

  // An unfinished deletion of the object at least one of whose deletes has raised.
  ghost predicate TriedHolder(tasks: Tasks, i: TaskId, k: Key) {
    i in tasks && i.key == Some(k) && tasks[i].status != Completed && tasks[i].attempts >= 1
  }

  // What is stored of a phrase that is erased or gone is held by an unfinished deletion.
  lemma AudioOfErasedIsHeld(db: Db, cfg: Settings, k: Key) returns (r: RequestId)
    requires Inv(db, cfg) && k in db.store && k.PhraseKey?
    requires k.phrase in db.phrases ==> db.phrases[k.phrase].state == Erased
    ensures r.tenant == k.tenant && OpenTask(db.tasks, r, k)
  {
    hide Inv;
    StoredIsHeld(db, cfg, k);
    if k.phrase in db.phrases {
      ErasedOwnsNothing(db, cfg, k.phrase);
    }
    r := if OpenTask(db.tasks, RequestId(k.tenant, PhraseAudio, k.phrase), k) then
      RequestId(k.tenant, PhraseAudio, k.phrase)
         else RequestId(k.tenant, SongResource, db.phrases[k.phrase].song);
  }

  // In every reachable state, with fresh phrase identifiers: after a round that starts no
  // earlier than anything was requested or expired, a phrase of a visited tenant that had
  // expired is erased or gone, and an object of it that is still stored is held by a
  // deletion at least one of whose deletes has raised.
  lemma MaintenanceErasesExpired(
    cfg: Settings, ops: seq<Op>, tenants: seq<Id>, expireAt: seq<Time>, processAt: seq<Time>, fate: TaskId -> Fate,
    at: Time, p: Id
  )
    requires cfg.retryLimit >= 1 && FreshRun(EMPTY, cfg, ops) && forall j :: 0 <= j < |ops| ==> OpBy(ops[j], at)
    requires |expireAt| == |processAt| == |tenants| && Ticking(at, expireAt, processAt)
    requires var db := Run(EMPTY, cfg, ops);
             p in db.phrases && db.phrases[p].tenant in tenants && db.phrases[p].expiresAt <= at
    ensures var db := Run(EMPTY, cfg, ops);
            var after := MaintainAll(db, cfg, tenants, expireAt, processAt, fate).0;
            && (p in after.phrases ==> after.phrases[p].state == Erased)
            && forall k :: k in after.store && k.PhraseKey? && k.tenant == db.phrases[p].tenant && k.phrase == p ==>
                 exists i :: TriedHolder(after.tasks, i, k)
  {
    hide Inv, Run, MaintainAll, FreshRun, Ticking;
    var db := Run(EMPTY, cfg, ops);
    EmptyInv(cfg);
    assert FreshOk(EMPTY) && ClockOk(EMPTY.tasks, at);
    RunInv(EMPTY, cfg, ops);
    RunFresh(EMPTY, cfg, ops);
    RunClock(EMPTY, cfg, ops, at);
    MaintenanceErasesEveryTenant(db, cfg, tenants, expireAt, processAt, fate, at);
    var after := MaintainAll(db, cfg, tenants, expireAt, processAt, fate).0;
    forall k | k in after.store && k.PhraseKey? && k.tenant == db.phrases[p].tenant && k.phrase == p
      ensures exists i :: TriedHolder(after.tasks, i, k)
    {
      var r := AudioOfErasedIsHeld(after, cfg, k);
      assert TriedHolder(after.tasks, TaskId(r, Some(k)), k);
    }
  }
}
