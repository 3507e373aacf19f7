// The object store on a file system, as steps of concurrent writers, and the store in
// memory that it behaves like.
module LocalStore {
  import opened Bytes
  import opened Options

  type Key = string
  type Payload = seq<Byte>
  type Objects = map<Key, Payload>

  // ----- The store in memory ------------------------------------------------------------

  datatype Op = OpPut(id: nat, key: Key, payload: Payload) | OpDelete(key: Key)

  datatype Outcome = Returned | Refused | Failed

  datatype Effect = Effect(after: Objects, outcome: Outcome)

  function Memory(objects: Objects, op: Op): Effect {
    match op
    case OpPut(_, key, payload) =>
      if key in objects && objects[key] != payload then Effect(objects, Refused)
      else Effect(objects[key := payload], Returned)
    case OpDelete(key) => Effect(objects - {key}, Returned)
  }

  class MemoryObjectStore {
    var objects: Objects

    constructor ()
      ensures objects == map[]
    {
      objects := map[];
    }

    method Put(id: nat, key: Key, payload: Payload) returns (ok: bool)
      modifies this
      ensures Effect(objects, if ok then Returned else Refused) == Memory(old(objects), OpPut(id, key, payload))
    {
      if key in objects && objects[key] != payload {
        return false;
      }
      objects := objects[key := payload];
      return true;
    }

    method Delete(key: Key)
      modifies this
      ensures Effect(objects, Returned) == Memory(old(objects), OpDelete(key))
    {
      objects := objects - {key};
    }
  }

  // ----- The file tree, and a writer that is left alone ---------------------------------

  ghost predicate Closed(targets: map<Key, nat>, contents: map<nat, Payload>) {
    forall k :: k in targets ==> targets[k] in contents
  }

  ghost function Read(targets: map<Key, nat>, contents: map<nat, Payload>): (m: Objects)
    requires Closed(targets, contents)
    ensures m.Keys == targets.Keys && forall k :: k in targets ==> m[k] == contents[targets[k]]
  {
    map k | k in targets :: contents[targets[k]]
  }

  lemma NewFile(targets: map<Key, nat>, contents: map<nat, Payload>, id: nat, payload: Payload)
    requires Closed(targets, contents) && id !in contents
    ensures Closed(targets, contents[id := payload])
    ensures Read(targets, contents[id := payload]) == Read(targets, contents)
  {
  }

  lemma NewLink(targets: map<Key, nat>, contents: map<nat, Payload>, key: Key, id: nat)
    requires Closed(targets, contents) && id in contents
    ensures Closed(targets[key := id], contents)
    ensures Read(targets[key := id], contents) == Read(targets, contents)[key := contents[id]]
  {
  }

  // A hard link gives a file a second name, so a path holds a file and not its bytes.  Each
  // writer makes one temporary file, named by a fresh identifier.
  class LocalObjectStore {
    var targets: map<Key, nat>
    var temporaries: set<nat>
    var contents: map<nat, Payload>

    ghost predicate Valid()
      reads this
    {
      Closed(targets, contents)
    }

    ghost function Objects(): Objects
      reads this
      requires Valid()
    {
      Read(targets, contents)
    }

    constructor ()
      ensures Valid() && Objects() == map[] && temporaries == {}
    {
      targets, temporaries, contents := map[], {}, map[];
    }

    // Between the check and the link another writer may have stored a file there.
    method Put(id: nat, key: Key, payload: Payload, rival: Option<(nat, Payload)>) returns (ok: bool)
      requires Valid() && id !in contents && id !in temporaries
      requires rival.Some? ==> rival.value.0 !in contents && rival.value.0 != id
      modifies this
      ensures Valid() && temporaries == old(temporaries)
      ensures var before := if key !in old(Objects()) && rival.Some? then
                old(Objects())[key := rival.value.1] else old(Objects());
              Effect(Objects(), if ok then Returned else Refused) == Memory(before, OpPut(id, key, payload))
    {
      hide Read;
      if key in targets {
        ok := contents[targets[key]] == payload;
        assert ok ==> Objects()[key := payload] == Objects();
        return;
      }
      NewFile(targets, contents, id, payload);
      temporaries := temporaries + {id};
      contents := contents[id := payload];
      if rival.Some? {
        NewFile(targets, contents, rival.value.0, rival.value.1);
        contents := contents[rival.value.0 := rival.value.1];
        NewLink(targets, contents, key, rival.value.0);
        targets := targets[key := rival.value.0];
      }
      if key !in targets {
        NewLink(targets, contents, key, id);
        targets := targets[key := id];
        ok := true;
      } else {
        ok := contents[targets[key]] == payload;
      }
      temporaries := temporaries - {id};
      assert ok ==> Objects()[key := payload] == Objects();
    }

    method Delete(key: Key)
      requires Valid()
      modifies this
      ensures Valid() && temporaries == old(temporaries)
      ensures Effect(Objects(), Returned) == Memory(old(Objects()), OpDelete(key))
    {
      targets := targets - {key};
      assert Objects() == old(Objects()) - {key};
    }
  }

  // ----- Concurrent writers -------------------------------------------------------------

  // Where a writer is: what it does next.
  datatype Phase =
    | AtExists | AtRead | AtOpen | AtWrite(written: nat) | AtLink | AtCompare | AtUnlink(outcome: Outcome)
    | Done(outcome: Outcome) | Crashed

  datatype Put = Put(key: Key, payload: Payload, phase: Phase)

  datatype State = State(puts: map<nat, Put>, targets: map<Key, nat>, temporaries: set<nat>,
                         contents: map<nat, Payload>)

  const EMPTY: State := State(map[], map[], {}, map[])

  // A call; one step of a writer, which writes some of its bytes; an I/O error at its next
  // step; its process dying; and a deletion.
  datatype Action =
    | Call(id: nat, key: Key, payload: Payload) | Advance(id: nat, count: nat) | Fault(id: nat) | Crash(id: nat)
    | Remove(key: Key)

  function Moved(s: State, id: nat, phase: Phase): State
    requires id in s.puts
  {
    s.(puts := s.puts[id := s.puts[id].(phase := phase)])
  }

  function Compared(s: State, p: Put): Outcome {
    if p.key !in s.targets || s.targets[p.key] !in s.contents then Failed
    else if s.contents[s.targets[p.key]] == p.payload then Returned
    else Refused
  }

  function Step(s: State, id: nat, count: nat): State
    requires id in s.puts
  {
    var p := s.puts[id];
    match p.phase
    case AtExists => Moved(s, id, if p.key in s.targets then AtRead else AtOpen)
    case AtRead => Moved(s, id, Done(Compared(s, p)))
    case AtOpen => Moved(s, id, AtWrite(0)).(temporaries := s.temporaries + {id}, contents := s.contents[id := []])
    case AtWrite(written) =>
      if written >= |p.payload| then Moved(s, id, AtLink)
      else
        var upto := if written + count <= |p.payload| then written + count else |p.payload|;
        Moved(s, id, AtWrite(upto)).(contents := s.contents[id := p.payload[..upto]])
    case AtLink =>
      if p.key in s.targets then Moved(s, id, AtCompare)
      else Moved(s, id, AtUnlink(Returned)).(targets := s.targets[p.key := id])
    case AtCompare => Moved(s, id, AtUnlink(Compared(s, p)))
    case AtUnlink(outcome) => Moved(s, id, Done(outcome)).(temporaries := s.temporaries - {id})
    case Done(_) => s
    case Crashed => s
  }

  // Once the temporary file may exist, an error leads to its removal.
  function Faulted(s: State, id: nat): State
    requires id in s.puts
  {
    match s.puts[id].phase
    case AtExists => Moved(s, id, Done(Failed))
    case AtRead => Moved(s, id, Done(Failed))
    case AtUnlink(_) => Moved(s, id, Done(Failed))
    case Done(_) => s
    case Crashed => s
    case _ => Moved(s, id, AtUnlink(Failed))
  }

  function Next(s: State, a: Action): State {
    match a
    case Call(id, key, payload) => if id in s.puts then s else s.(puts := s.puts[id := Put(key, payload, AtExists)])
    case Advance(id, count) => if id in s.puts then Step(s, id, count) else s
    case Fault(id) => if id in s.puts then Faulted(s, id) else s
    case Crash(id) => if id in s.puts && !s.puts[id].phase.Done? then Moved(s, id, Crashed) else s
    case Remove(key) => s.(targets := s.targets - {key})
  }

  // ----- What every step keeps ----------------------------------------------------------

  predicate Past(phase: Phase) {
    phase.AtUnlink? || phase.Done? || phase.Crashed?
  }

  predicate PutFine(s: State, id: nat, p: Put) {
    && (p.phase.AtWrite? ==>
        id in s.contents && p.phase.written <= |p.payload| && s.contents[id] == p.payload[..p.phase.written])
    && (p.phase.AtLink? ==> id in s.contents && s.contents[id] == p.payload)
    && (p.phase.Done? && id in s.temporaries ==> p.phase.outcome == Failed)
    && (p.phase.AtExists? || p.phase.AtRead? || p.phase.AtOpen? ==> id !in s.temporaries)
  }

  // A path only ever holds a file whose writer has written all of it and is done with it.
  predicate TargetFine(s: State, key: Key) {
    && key in s.targets && s.targets[key] in s.puts && s.targets[key] in s.contents
    && var p := s.puts[s.targets[key]];
       p.key == key && p.payload == s.contents[s.targets[key]] && Past(p.phase)
  }

  ghost predicate Inv(s: State) {
    && (forall id :: id in s.puts ==> PutFine(s, id, s.puts[id]))
    && (forall key :: key in s.targets ==> TargetFine(s, key))
    && s.temporaries <= s.puts.Keys
  }

  function Stored(s: State): (m: Objects)
    requires Inv(s)
    ensures m.Keys == s.targets.Keys
  {
    map k | k in s.targets && s.targets[k] in s.contents :: s.contents[s.targets[k]]
  }

  // The writer a step belongs to, if any.
  predicate Moves(a: Action, id: nat) {
    (a.Call? || a.Advance? || a.Fault? || a.Crash?) && a.id == id
  }

  // Nothing a step does reaches another writer or its file.
  lemma OthersUntouched(s: State, a: Action, id: nat)
    requires !Moves(a, id)
    ensures var t := Next(s, a);
            && (id in t.puts <==> id in s.puts) && (id in s.puts ==> t.puts[id] == s.puts[id])
            && (id in t.contents <==> id in s.contents) && (id in s.contents ==> t.contents[id] == s.contents[id])
            && (id in t.temporaries <==> id in s.temporaries)
  {
  }

  lemma MoverFine(s: State, a: Action, id: nat)
    requires Moves(a, id) && (id in s.puts ==> PutFine(s, id, s.puts[id])) && s.temporaries <= s.puts.Keys
    ensures var t := Next(s, a);
            && (id in t.puts ==> PutFine(t, id, t.puts[id])) && t.temporaries <= t.puts.Keys
  {
  }

  // A file that is at a path, or that is being given one, is finished and stays as it is.
  lemma FinishedFile(s: State, a: Action, id: nat)
    requires Moves(a, id) && id in s.puts && (Past(s.puts[id].phase) || s.puts[id].phase.AtLink?)
    requires PutFine(s, id, s.puts[id])
    ensures var t := Next(s, a);
            && id in t.puts && t.puts[id].key == s.puts[id].key && t.puts[id].payload == s.puts[id].payload
            && (id in s.contents ==> id in t.contents && t.contents[id] == s.contents[id])
            && (Past(s.puts[id].phase) ==> Past(t.puts[id].phase))
  {
  }

  lemma TargetMoves(s: State, a: Action, key: Key)
    ensures var t := Next(s, a);
            key in t.targets ==>
              || (key in s.targets && t.targets[key] == s.targets[key])
              || (&& a.Advance? && key !in s.targets && t.targets[key] == a.id && a.id in s.puts
                  && s.puts[a.id].phase.AtLink?
                  && s.puts[a.id].key == key && Past(t.puts[a.id].phase))
  {
  }

  lemma TargetKept(s: State, a: Action, key: Key)
    requires Inv(s) && key in Next(s, a).targets
    ensures TargetFine(Next(s, a), key)
  {
    hide Next, PutFine, Past;
    TargetMoves(s, a, key);
    var id := Next(s, a).targets[key];
    assert key in s.targets ==> TargetFine(s, key);
    assert id in s.puts && PutFine(s, id, s.puts[id]);
    if Moves(a, id) {
      LinkableFine(s, id);
      FinishedFile(s, a, id);
    } else {
      OthersUntouched(s, a, id);
    }
  }

  lemma LinkableFine(s: State, id: nat)
    requires id in s.puts && PutFine(s, id, s.puts[id])
    ensures s.puts[id].phase.AtLink? ==> id in s.contents && s.contents[id] == s.puts[id].payload
  {
  }

  lemma NextInv(s: State, a: Action)
    requires Inv(s)
    ensures Inv(Next(s, a))
  {
    hide Next, PutFine, TargetFine, Moves;
    var t := Next(s, a);
    forall key | key in t.targets ensures TargetFine(t, key) {
      TargetKept(s, a, key);
    }
    forall id ensures id in t.puts ==> PutFine(t, id, t.puts[id]) {
      assert id in s.puts ==> PutFine(s, id, s.puts[id]);
      PutKept(s, a, id);
    }
    TemporariesKept(s, a);
  }

  lemma PutKept(s: State, a: Action, id: nat)
    requires (id in s.puts ==> PutFine(s, id, s.puts[id])) && s.temporaries <= s.puts.Keys
    ensures id in Next(s, a).puts ==> PutFine(Next(s, a), id, Next(s, a).puts[id])
  {
    hide Next;
    if Moves(a, id) {
      MoverFine(s, a, id);
    } else {
      OthersUntouched(s, a, id);
    }
  }

  lemma TemporariesKept(s: State, a: Action)
    requires s.temporaries <= s.puts.Keys
    ensures Next(s, a).temporaries <= Next(s, a).puts.Keys
  {
  }

  // ----- Refinement ---------------------------------------------------------------------

  // The operation on the store in memory that a step amounts to, if any: a writer takes
  // effect when it reads an existing object, or when its link succeeds.
  function Decision(s: State, a: Action): Option<Op> {
    match a
    case Remove(key) => Some(OpDelete(key))
    case Advance(id, _) =>
      if id !in s.puts then None
      else
        var p := s.puts[id];
        var decides := match p.phase
          case AtRead => p.key in s.targets
          case AtLink => p.key !in s.targets
          case AtCompare => p.key in s.targets
          case _ => false;
        if decides then Some(OpPut(id, p.key, p.payload)) else None
    case _ => None
  }

  predicate Settled(s: State, id: nat, outcome: Outcome) {
    id in s.puts && (s.puts[id].phase == AtUnlink(outcome) || s.puts[id].phase == Done(outcome))
  }

  // What is stored at a key that both states have: the same bytes.
  lemma StoredKept(s: State, a: Action, key: Key)
    requires Inv(s) && Inv(Next(s, a)) && key in s.targets && key in Next(s, a).targets
    ensures Stored(Next(s, a))[key] == Stored(s)[key]
  {
    hide Next, PutFine;
    var t := Next(s, a);
    assert TargetFine(s, key) && TargetFine(t, key);
    TargetMoves(s, a, key);
    var id := s.targets[key];
    assert PutFine(s, id, s.puts[id]);
    if Moves(a, id) {
      FinishedFile(s, a, id);
    } else {
      OthersUntouched(s, a, id);
    }
  }

  // Every step is one operation of the store in memory, with its outcome, or nothing.
  lemma StepRefines(s: State, a: Action)
    requires Inv(s) && Inv(Next(s, a))
    ensures match Decision(s, a)
            case None => Stored(Next(s, a)) == Stored(s)
            case Some(op) =>
              && Memory(Stored(s), op).after == Stored(Next(s, a))
              && (op.OpPut? ==> Settled(Next(s, a), op.id, Memory(Stored(s), op).outcome))
  {
    hide Next, Inv, Stored, Decision, Settled;
    var t := Next(s, a);
    forall key | key in s.targets && key in t.targets ensures Stored(t)[key] == Stored(s)[key] {
      StoredKept(s, a, key);
    }
    TargetsDecided(s, a);
    match Decision(s, a)
    case None => assert Stored(t) == Stored(s);
    case Some(op) =>
      if op.OpPut? {
        PutDecided(s, a);
      }
      assert Memory(Stored(s), op).after == Stored(t);
  }

  lemma TargetsDecided(s: State, a: Action)
    ensures Next(s, a).targets.Keys == match Decision(s, a)
            case None => s.targets.Keys
            case Some(OpDelete(key)) => s.targets.Keys - {key}
            case Some(OpPut(_, key, _)) => s.targets.Keys + {key}
  {
  }

  lemma PutDecided(s: State, a: Action)
    requires Inv(s) && Inv(Next(s, a)) && Decision(s, a).Some? && Decision(s, a).value.OpPut?
    ensures var op := Decision(s, a).value;
            && Settled(Next(s, a), op.id, Memory(Stored(s), op).outcome)
            && (op.key !in s.targets ==> Stored(Next(s, a))[op.key] == op.payload)
  {
    var op := Decision(s, a).value;
    assert op.key in s.targets ==> TargetFine(s, op.key);
    assert TargetFine(Next(s, a), op.key);
  }

  // ----- Runs ---------------------------------------------------------------------------

  // The state after any interleaving of calls, steps, errors, crashes and deletions.
  function After(run: seq<Action>): State {
    if run == [] then EMPTY else Next(After(run[..|run| - 1]), run[|run| - 1])
  }

  // The operations that took effect, in order.
  function Trace(run: seq<Action>): seq<Op> {
    if run == [] then []
    else
      var decision := Decision(After(run[..|run| - 1]), run[|run| - 1]);
      Trace(run[..|run| - 1]) + if decision.Some? then [decision.value] else []
  }

  // One after the other on the store in memory.
  function Replay(ops: seq<Op>): Objects {
    if ops == [] then map[] else Memory(Replay(ops[..|ops| - 1]), ops[|ops| - 1]).after
  }

  function Answer(ops: seq<Op>, i: nat): Outcome
    requires i < |ops|
  {
    Memory(Replay(ops[..i]), ops[i]).outcome
  }

  lemma {:induction false} RunInv(run: seq<Action>)
    ensures Inv(After(run))
  {
    hide Inv, Next;
    if run == [] {
      EmptyInv();
    } else {
      RunInv(run[..|run| - 1]);
      NextInv(After(run[..|run| - 1]), run[|run| - 1]);
    }
  }

  lemma EmptyInv()
    ensures Inv(EMPTY)
  {
  }

  // What is stored after any run is what the store in memory holds after the operations
  // that took effect, each taking effect within its call.
  lemma {:induction false} RunRefines(run: seq<Action>)
    ensures Inv(After(run)) && Replay(Trace(run)) == Stored(After(run))
  {
    hide Inv, Next, Decision, Memory, Stored;
    RunInv(run);
    if run == [] {
      NothingStored();
    } else {
      var before := run[..|run| - 1];
      RunRefines(before);
      StepRefines(After(before), run[|run| - 1]);
      var decision := Decision(After(before), run[|run| - 1]);
      if decision.Some? {
        assert Trace(run)[..|Trace(run)| - 1] == Trace(before);
      } else {
        assert Trace(run) == Trace(before);
      }
    }
  }

  lemma NothingStored()
    ensures Inv(EMPTY) && Stored(EMPTY) == map[]
  {
  }

  ghost predicate Answered(run: seq<Action>, id: nat, i: nat, outcome: Outcome)
    requires id in After(run).puts
  {
    var p := After(run).puts[id];
    i < |Trace(run)| && Trace(run)[i] == OpPut(id, p.key, p.payload) && Answer(Trace(run), i) == outcome
  }

  // What a step does to a writer that is settled, or settles it.
  lemma SettlesOnce(s: State, a: Action, id: nat, outcome: Outcome)
    requires Inv(s) && Settled(Next(s, a), id, outcome) && outcome != Failed
    ensures id in s.puts && s.puts[id].key == Next(s, a).puts[id].key
            && s.puts[id].payload == Next(s, a).puts[id].payload
    ensures Settled(s, id, outcome) || Decision(s, a) == Some(OpPut(id, s.puts[id].key, s.puts[id].payload))
  {
    hide Next, Inv, Decision;
    if Moves(a, id) {
      OwnStepSettles(s, a, id, outcome);
    } else {
      OthersUntouched(s, a, id);
    }
  }

  lemma OwnStepSettles(s: State, a: Action, id: nat, outcome: Outcome)
    requires Moves(a, id) && Settled(Next(s, a), id, outcome) && outcome != Failed
    ensures id in s.puts && s.puts[id].key == Next(s, a).puts[id].key
            && s.puts[id].payload == Next(s, a).puts[id].payload
    ensures Settled(s, id, outcome) || Decision(s, a) == Some(OpPut(id, s.puts[id].key, s.puts[id].payload))
  {
  }

  // A put that returned, or was refused, took effect and got that answer.
  lemma {:induction false} OutcomesAgree(run: seq<Action>, id: nat, outcome: Outcome)
    requires Settled(After(run), id, outcome) && outcome != Failed
    ensures exists i: nat :: Answered(run, id, i, outcome)
  {
    hide Inv, Next, Decision, Memory, Stored, Settled;
    assert id in After(run).puts by { SettledIsKnown(After(run), id, outcome); }
    RunInv(run);
    if run == [] {
      NoneSettled(id, outcome);
    } else {
      var before := run[..|run| - 1];
      RunInv(before);
      var s, a := After(before), run[|run| - 1];
      SettlesOnce(s, a, id, outcome);
      if Settled(s, id, outcome) {
        OutcomesAgree(before, id, outcome);
        var i: nat :| Answered(before, id, i, outcome);
        assert Trace(run)[..i] == Trace(before)[..i];
        assert Answered(run, id, i, outcome);
      } else {
        RunRefines(before);
        StepRefines(s, a);
        var i := |Trace(before)|;
        assert Trace(run)[..i] == Trace(before);
        SettledOnce(After(run), id, outcome, Memory(Stored(s), Decision(s, a).value).outcome);
        assert Answered(run, id, i, outcome);
      }
    }
  }

  lemma SettledIsKnown(s: State, id: nat, outcome: Outcome)
    requires Settled(s, id, outcome)
    ensures id in s.puts
  {
  }

  lemma NoneSettled(id: nat, outcome: Outcome)
    ensures !Settled(EMPTY, id, outcome)
  {
  }

  lemma SettledOnce(s: State, id: nat, a: Outcome, b: Outcome)
    requires Settled(s, id, a) && Settled(s, id, b)
    ensures a == b
  {
  }

  // A writer whose operation took effect is past the point of another.
  lemma DecidesOnce(s: State, a: Action, id: nat)
    requires id in s.puts && Past(s.puts[id].phase)
    ensures id in Next(s, a).puts && Past(Next(s, a).puts[id].phase)
    ensures Decision(s, a).None? || Decision(s, a).value.OpDelete? || Decision(s, a).value.id != id
  {
  }

  lemma DecidersArePast(s: State, a: Action)
    requires Decision(s, a).Some? && Decision(s, a).value.OpPut?
    ensures Decision(s, a).value.id in Next(s, a).puts && Past(Next(s, a).puts[Decision(s, a).value.id].phase)
  {
  }

  lemma {:induction false} TracedArePast(run: seq<Action>, i: nat)
    requires i < |Trace(run)| && Trace(run)[i].OpPut?
    ensures Trace(run)[i].id in After(run).puts && Past(After(run).puts[Trace(run)[i].id].phase)
    ensures forall j :: 0 <= j < i && Trace(run)[j].OpPut? ==> Trace(run)[j].id != Trace(run)[i].id
  {
    hide Next, Decision, Past;
    var before := run[..|run| - 1];
    var s, a := After(before), run[|run| - 1];
    if i < |Trace(before)| {
      TracedArePast(before, i);
      DecidesOnce(s, a, Trace(run)[i].id);
    } else {
      DecidersArePast(s, a);
      forall j | 0 <= j < i && Trace(run)[j].OpPut? ensures Trace(run)[j].id != Trace(run)[i].id {
        TracedArePast(before, j);
        DecidesOnce(s, a, Trace(run)[j].id);
      }
    }
  }

  // ----- Without deletions --------------------------------------------------------------

  predicate NoRemovals(run: seq<Action>) {
    forall i :: 0 <= i < |run| ==> !run[i].Remove?
  }

  lemma StepNeverReplaces(s: State, a: Action, key: Key)
    requires Inv(s) && Inv(Next(s, a)) && !a.Remove? && key in Stored(s)
    ensures key in Stored(Next(s, a)) && Stored(Next(s, a))[key] == Stored(s)[key]
  {
    hide Next, Inv;
    TargetsDecided(s, a);
    assert Decision(s, a).Some? ==> Decision(s, a).value.OpPut?;
    StoredKept(s, a, key);
  }

  // A key is given content at most once: whatever it holds at some point it holds for good.
  lemma {:induction false} SetOnce(run: seq<Action>, n: nat, key: Key)
    requires NoRemovals(run) && n <= |run|
    requires Inv(After(run[..n])) && key in Stored(After(run[..n]))
    ensures Inv(After(run)) && key in Stored(After(run)) && Stored(After(run))[key] == Stored(After(run[..n]))[key]
    decreases |run|
  {
    hide Inv, Next, Stored;
    RunInv(run);
    if n == |run| {
      assert run[..n] == run;
    } else {
      var before := run[..|run| - 1];
      assert before[..n] == run[..n];
      SetOnce(before, n, key);
      StepNeverReplaces(After(before), run[|run| - 1], key);
    }
  }

  // What is stored is one caller's payload, and all of it.
  lemma StoredIsSomeones(run: seq<Action>, key: Key)
    requires Inv(After(run)) && key in Stored(After(run))
    ensures exists id ::
              id in After(run).puts && After(run).puts[id].key == key
                  && After(run).puts[id].payload == Stored(After(run))[key]
  {
    assert TargetFine(After(run), key);
    assert After(run).targets[key] in After(run).puts;
  }

  lemma StepKeepsOutcome(s: State, a: Action, id: nat, outcome: Outcome)
    requires Inv(s) && Inv(Next(s, a)) && !a.Remove? && Settled(Next(s, a), id, outcome) && outcome != Failed
    requires Settled(s, id, outcome) ==>
               && s.puts[id].key in Stored(s)
               && (outcome == Returned <==> Stored(s)[s.puts[id].key] == s.puts[id].payload)
    ensures var p, m := Next(s, a).puts[id], Stored(Next(s, a));
            p.key in m && (outcome == Returned <==> m[p.key] == p.payload)
  {
    hide Next, Inv, Stored, Decision, Settled;
    SettledIsKnown(Next(s, a), id, outcome);
    SettlesOnce(s, a, id, outcome);
    if Settled(s, id, outcome) {
      StepNeverReplaces(s, a, s.puts[id].key);
    } else {
      StepRefines(s, a);
      SettledOnce(Next(s, a), id, outcome, Memory(Stored(s), Decision(s, a).value).outcome);
    }
  }

  // A put that finished without an error returned normally exactly when what is stored
  // at its key, then and ever after, is its own payload.
  lemma {:induction false} ReturnsExactlyIfStored(run: seq<Action>, id: nat, outcome: Outcome)
    requires NoRemovals(run) && Inv(After(run)) && Settled(After(run), id, outcome) && outcome != Failed
    ensures var p, m := After(run).puts[id], Stored(After(run));
            p.key in m && (outcome == Returned <==> m[p.key] == p.payload)
  {
    hide Inv, Next, Stored, Settled;
    SettledIsKnown(After(run), id, outcome);
    if run == [] {
      NoneSettled(id, outcome);
    } else {
      var before := run[..|run| - 1];
      RunInv(before);
      if Settled(After(before), id, outcome) {
        SettledIsKnown(After(before), id, outcome);
        ReturnsExactlyIfStored(before, id, outcome);
      }
      StepKeepsOutcome(After(before), run[|run| - 1], id, outcome);
    }
  }

  // ----- Every put finishes -------------------------------------------------------------

  // How many more of its own steps a writer may take.
  function Rank(p: Put): nat {
    match p.phase
    case AtExists => |p.payload| + 6
    case AtRead => 1
    case AtOpen => |p.payload| + 5
    case AtWrite(written) => if written < |p.payload| then |p.payload| - written + 4 else 4
    case AtLink => 3
    case AtCompare => 2
    case AtUnlink(_) => 1
    case _ => 0
  }

  // The steps, of at least one byte when writing, that a writer has taken since its call.
  function Turns(run: seq<Action>, id: nat): nat {
    if run == [] then 0
    else
      var before, a := run[..|run| - 1], run[|run| - 1];
      Turns(before, id) + if a.Advance? && a.id == id && a.count > 0 && id in After(before).puts then 1 else 0
  }

  lemma RankDrops(s: State, a: Action, id: nat)
    ensures id in s.puts ==>
              && id in Next(s, a).puts && Next(s, a).puts[id].payload == s.puts[id].payload
              && Rank(Next(s, a).puts[id]) <= Rank(s.puts[id])
              && (a.Advance? && a.id == id && a.count > 0 && Rank(s.puts[id]) > 0 ==>
                  Rank(Next(s, a).puts[id]) < Rank(s.puts[id]))
    ensures id !in s.puts && id in Next(s, a).puts ==> Rank(Next(s, a).puts[id]) == |Next(s, a).puts[id].payload| + 6
  {
    hide Next, Rank;
    if Moves(a, id) {
      match a
      case Advance(_, count) => TurnDrops(s, id, count);
      case Call(_, _, _) => CallStarts(s, a);
      case _ => StopDrops(s, a);
    } else {
      OthersUntouched(s, a, id);
    }
  }

  lemma TurnKeepsPayload(s: State, id: nat, count: nat)
    ensures var t := Next(s, Advance(id, count));
            && (id in t.puts <==> id in s.puts)
            && (id in s.puts ==> t.puts[id].payload == s.puts[id].payload)
  {
  }

  lemma WriteLowersRank(s: State, id: nat, count: nat)
    requires id in s.puts && s.puts[id].phase.AtWrite? && id in Next(s, Advance(id, count)).puts
    ensures var before, after := Rank(s.puts[id]), Rank(Next(s, Advance(id, count)).puts[id]);
            after <= before && (count > 0 ==> after < before)
  {
  }

  lemma OtherTurnLowersRank(s: State, id: nat, count: nat)
    requires id in s.puts && !s.puts[id].phase.AtWrite? && id in Next(s, Advance(id, count)).puts
    ensures var before, after := Rank(s.puts[id]), Rank(Next(s, Advance(id, count)).puts[id]);
            after <= before && (before > 0 ==> after < before)
  {
  }

  lemma TurnLowersRank(s: State, id: nat, count: nat)
    requires id in s.puts && id in Next(s, Advance(id, count)).puts
    ensures var before, after := Rank(s.puts[id]), Rank(Next(s, Advance(id, count)).puts[id]);
            after <= before && (count > 0 && before > 0 ==> after < before)
  {
    hide Next, Rank;
    if s.puts[id].phase.AtWrite? {
      WriteLowersRank(s, id, count);
    } else {
      OtherTurnLowersRank(s, id, count);
    }
  }

  lemma TurnDrops(s: State, id: nat, count: nat)
    ensures var t := Next(s, Advance(id, count));
            && (id in t.puts <==> id in s.puts)
            && (id in s.puts ==>
                  && t.puts[id].payload == s.puts[id].payload && Rank(t.puts[id]) <= Rank(s.puts[id])
                  && (count > 0 && Rank(s.puts[id]) > 0 ==> Rank(t.puts[id]) < Rank(s.puts[id])))
  {
    hide Next, Rank;
    TurnKeepsPayload(s, id, count);
    if id in s.puts {
      TurnLowersRank(s, id, count);
    }
  }

  lemma CallStarts(s: State, a: Action)
    requires a.Call?
    ensures a.id in Next(s, a).puts
    ensures if a.id in s.puts then
              Next(s, a) == s else Rank(Next(s, a).puts[a.id]) == |Next(s, a).puts[a.id].payload| + 6
  {
  }

  lemma StopDrops(s: State, a: Action)
    requires (a.Fault? || a.Crash?)
    ensures a.id in Next(s, a).puts <==> a.id in s.puts
    ensures a.id in s.puts ==>
              Next(s, a).puts[a.id].payload == s.puts[a.id].payload && Rank(Next(s, a).puts[a.id]) <= Rank(s.puts[a.id])
  {
  }

  lemma RankZeroIsFinished(p: Put)
    ensures Rank(p) == 0 <==> p.phase.Done? || p.phase.Crashed?
  {
  }

  // Every turn of its own brings a writer nearer the end.
  lemma {:induction false} TurnsLowerRank(run: seq<Action>, id: nat)
    ensures id !in After(run).puts ==> Turns(run, id) == 0
    ensures id in After(run).puts ==>
              var p := After(run).puts[id];
              Rank(p) == 0 || Rank(p) + Turns(run, id) <= |p.payload| + 6
  {
    hide Next, Rank;
    if run != [] {
      TurnsLowerRank(run[..|run| - 1], id);
      RankDrops(After(run[..|run| - 1]), run[|run| - 1], id);
    }
  }

  // However the others interleave, a writer that has had that many turns of its own is
  // through: it has returned, raised or died.
  lemma EveryPutFinishes(run: seq<Action>, id: nat)
    requires id in After(run).puts
    ensures var p := After(run).puts[id];
            Turns(run, id) >= |p.payload| + 6 ==> p.phase.Done? || p.phase.Crashed?
  {
    hide After, Turns, Rank;
    TurnsLowerRank(run, id);
    RankZeroIsFinished(After(run).puts[id]);
  }
}
