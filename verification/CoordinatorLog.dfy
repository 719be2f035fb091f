/**
  What the coordinator records is what its log decodes (harness/coordinator/loop.go,
  harness/sessionstore/localfile/codec.go): every step writes at most one record, so that
  in every run the bytes of the session's file, also after an append that was torn, say
  what a restart needs.
 */
module CoordinatorLog {
  import opened Llm
  import CB = ContextBuilder
  import opened SessionState
  import opened SessionLog
  import opened Utf8
  import opened Coordinator
  import opened CoordinatorRuns
  import opened CoordinatorRecovery

  /** The record of an item recorded next. */
  function ItemNext(s: Sys, data: Data, operations: seq<Operation>, at: Time): Record {
    ItemRecord(Entry(|s.stored.items| + 1, at, data), operations)
  }

  /** The record a step writes, if any. */
  function WrittenBy(env: Env, s: Sys, action: Action): Option<Record>
    requires CB.CheckpointsInRange(s.local.builder) && CB.CheckpointsInRange(env.base) && Step(env, s, action).Some?
  {
    match action
    case ScheduleCall(key, status, operations, at) => Some(ItemNext(s, StatusOf(key, status), operations, at))
    case TakeInput(input, at) => Some(ItemNext(s, InputData(input), [], at))
    case TakeUpdate(o) => Some(OperationRecord(o))
    case ReconcileCall(key, at) =>
      var status := s.local.toolCalls[key].status.value;
      Some(ItemNext(s, StatusOf(key, status), Snapshots(status.waitingFor, s.local.operations), at))
    case Decide(turnID, at) =>
      if s.vol.stop.Hard? || !ShouldCall(s) then None
      else Some(ItemNext(s, TurnData(Turn(turnID, s.local.currentTurnID, Compacts(env, s))), [], at))
    case TakeResponse(response, at) => Some(ItemNext(s, ResponseData(s.local.currentTurnID, response), [], at))
    case _ => None
  }

  /** A record of a running session: not a fork. */
  predicate NoFork(record: Record) { !(record.ItemRecord? && record.item.data.ForkData?) }

  lemma PersistWrites(env: Env, s: Sys, data: Data, operations: seq<Operation>, at: Time)
    requires CB.CheckpointsInRange(s.local.builder) && Persist(env, s, data, operations, at).Some?
    requires at != 0 && (!data.StatusData? ==> operations == [])
    ensures Apply(s.stored, ItemNext(s, data, operations, at)) == Some(Persist(env, s, data, operations, at).value.stored)
    ensures NoFork(ItemNext(s, data, operations, at))
  {
    hide AddItem, AppendInput, AppendTurn, AppendResponse, AppendStatus;
  }

  /** A step's record, applied to what was stored before, gives what is stored after it;
      without a record nothing changes. */
  lemma StepWrites(env: Env, s: Sys, action: Action)
    requires CB.CheckpointsInRange(s.local.builder) && CB.CheckpointsInRange(env.base) && Step(env, s, action).Some? && Timed(action)
    ensures var t, record := Step(env, s, action).value, WrittenBy(env, s, action);
            if record.None? then t.stored == s.stored
            else NoFork(record.value) && Apply(s.stored, record.value) == Some(t.stored)
  {
    hide Persist, Apply, AllScheduled, Pending, Idle, ShouldCall, WithSiblings, Compacts, AllTerminal, Translates, Restore, CB.CheckpointsInRange;
    match action
    case ScheduleCall(key, status, operations, at) => PersistWrites(env, s, StatusOf(key, status), operations, at);
    case TakeInput(input, at) => PersistWrites(env, s, InputData(input), [], at);
    case TakeUpdate(o) => UpdateWrites(s, o);
    case ReconcileCall(key, at) =>
      var status := s.local.toolCalls[key].status.value;
      PersistWrites(env, s, StatusOf(key, status), Snapshots(status.waitingFor, s.local.operations), at);
    case Decide(turnID, at) =>
      if !s.vol.stop.Hard? && ShouldCall(s) {
        PersistWrites(env, s, TurnData(Turn(turnID, s.local.currentTurnID, Compacts(env, s))), [], at);
      }
    case TakeResponse(response, at) => PersistWrites(env, s, ResponseData(s.local.currentTurnID, response), [], at);
    case _ =>
  }

  lemma UpdateWrites(s: Sys, o: Operation)
    requires ReceiveUpdate(s, o).Some?
    ensures Apply(s.stored, OperationRecord(o)) == Some(ReceiveUpdate(s, o).value.stored)
  {
  }

  /** Everything a run writes, in order. */
  function Written(env: Env, s: Sys, actions: seq<Action>): seq<Record>
    requires CB.CheckpointsInRange(s.local.builder) && CB.CheckpointsInRange(env.base)
    decreases |actions|
  {
    if actions == [] || Step(env, s, actions[0]).None? || !CB.CheckpointsInRange(Step(env, s, actions[0]).value.local.builder) then []
    else
      var record := WrittenBy(env, s, actions[0]);
      (if record.Some? then [record.value] else []) + Written(env, Step(env, s, actions[0]).value, actions[1..])
  }

  lemma {:induction false} AppliesAfter(s: Stored, first: Record, more: seq<Record>, k: nat)
    requires k <= |more| && Apply(s, first).Some?
    ensures ApplyAll(s, [first] + more, k + 1) == ApplyAll(Apply(s, first).value, more, k)
  {
    hide Apply;
    if k == 0 {
      assert ApplyAll(s, [first] + more, 0) == Some(s);
    } else {
      AppliesAfter(s, first, more, k - 1);
      assert ([first] + more)[k] == more[k - 1];
    }
  }

  /** What a run has written makes of what was stored before what is stored after it. */
  lemma {:induction false} RunWrites(env: Env, s: Sys, actions: seq<Action>, t: Sys)
    requires CB.CheckpointsInRange(s.local.builder) && CB.CheckpointsInRange(env.base) && Reaches(env, s, actions, t)
    ensures var records := Written(env, s, actions);
            && ApplyAll(s.stored, records, |records|) == Some(t.stored)
            && forall i :: 0 <= i < |records| ==> NoFork(records[i])
    decreases |actions|
  {
    hide Step, Apply, WrittenBy, NoFork, CB.CheckpointsInRange;
    if actions != [] {
      var next, record := Step(env, s, actions[0]).value, WrittenBy(env, s, actions[0]);
      StepWrites(env, s, actions[0]);
      RunWrites(env, next, actions[1..], t);
      var rest := Written(env, next, actions[1..]);
      if record.Some? { AppliesAfter(s.stored, record.value, rest, |rest|); } else { assert [] + rest == rest; }
    }
  }

  /** The bytes of a session's file: its initial log and what a run has written. */
  function FileAfter(c: Codec, env: Env, session: Session, actions: seq<Action>): Option<Bytes>
    requires CB.CheckpointsInRange(env.base)
  {
    var records := Written(env, Start(env, session), actions);
    match (EncodeInitial(c, session, [], 0), EncodeAll(c, records, |records|))
    case (Some(initial), Some(more)) => Some(initial + more)
    case _ => None
  }

  /** In every run whose records could be encoded, the file decodes to exactly what the
      coordinator has stored, and a restart from its bytes gives the live state. */
  lemma FileTellsTheRun(c: Codec, env: Env, session: Session, actions: seq<Action>, t: Sys)
    requires Faithful(c) && session.createdAt != 0 && CB.CheckpointsInRange(env.base)
    requires Reaches(env, Start(env, session), actions, t) && FileAfter(c, env, session, actions).Some?
    ensures var file := FileAfter(c, env, session, actions).value;
            Decode(c, file) == Some(Decoded(t.stored, |file|))
    ensures Restore(env.tools, env.base, t.stored) == Some(t.local)
  {
    hide Decode, Apply, Reaches, EncodeInitial, EncodeAll, Restore, Written, CB.CheckpointsInRange;
    var start := Start(env, session);
    var records := Written(env, start, actions);
    CreateRoundTrip(c, session);
    RunWrites(env, start, actions, t);
    LaterAppends(c, EncodeInitial(c, session, [], 0).value, records, |records|);
    CrashChangesNothing(env, session, actions, t);
  }

  /** A crash while a step's record is being written, at any byte: what the file then says is
      the state before the step or, if all of the record is there, the state after it; and
      a restart from it gives the live state of then. */
  lemma TornStepIsAllOrNothing(c: Codec, env: Env, session: Session, actions: seq<Action>, s: Sys, action: Action, p: nat)
    requires Faithful(c) && session.createdAt != 0 && CB.CheckpointsInRange(env.base) && CB.CheckpointsInRange(s.local.builder)
    requires Reaches(env, Start(env, session), actions, s) && FileAfter(c, env, session, actions).Some?
    requires Fair(s, action) && Step(env, s, action).Some? && WrittenBy(env, s, action).Some?
    requires EncodeRecord(c, WrittenBy(env, s, action).value).Some? && p <= |EncodeRecord(c, WrittenBy(env, s, action).value).value|
    ensures var file, line := FileAfter(c, env, session, actions).value, EncodeRecord(c, WrittenBy(env, s, action).value).value;
            var now := if p < |line| then s else Step(env, s, action).value;
            && Decode(c, file + line[..p]).Some? && Decode(c, file + line[..p]).value.state == now.stored
            && Restore(env.tools, env.base, now.stored) == Some(now.local)
  {
    hide Decode, Apply, Step, WrittenBy, Recoverable, EncodeRecord, FileAfter, Restore, CB.CheckpointsInRange, Fair;
    FileTellsTheRun(c, env, session, actions, s);
    FairIsTimed(s, action);
    StepWrites(env, s, action);
    AppendRecord(c, FileAfter(c, env, session, actions).value, WrittenBy(env, s, action).value, p);
    StartRecoverable(env, session);
    RunRecoverable(env, Start(env, session), actions, s);
    StepRecoverable(env, s, action);
    RestartIsExact(env, Step(env, s, action).value);
  }

  lemma AppendRecord(c: Codec, b: Bytes, record: Record, p: nat)
    requires Faithful(c) && EncodeRecord(c, record).Some? && p <= |EncodeRecord(c, record).value| && NoFork(record)
    requires Decode(c, b).Some? && Decode(c, b).value.committedSize == |b| && Apply(Decode(c, b).value.state, record).Some?
    ensures var line, before := EncodeRecord(c, record).value, Decode(c, b).value.state;
            && Decode(c, b + line[..p]).Some?
            && Decode(c, b + line[..p]).value.state == if p < |line| then before else Apply(before, record).value
  {
    hide Decode, Apply, EncodeRecord;
    TornAppend(c, b, record, p);
  }

  lemma FairIsTimed(s: Sys, action: Action)
    requires Fair(s, action)
    ensures Timed(action)
  {
  }
}
