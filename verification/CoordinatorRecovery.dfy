/**
  Crash recovery of the coordinator (harness/coordinator/loop.go): in every state a run
  reaches, with any number of crashes in it, a restart from the log rebuilds exactly the
  live state, so that a crash is not seen in it.
 */
module CoordinatorRecovery {
  import opened Llm
  import CB = ContextBuilder
  import opened SessionState
  import opened Coordinator
  import opened CoordinatorRuns

  predicate NoForks(items: seq<Entry>) { forall i :: 0 <= i < |items| ==> !items[i].data.ForkData? }

  /** Replaying the log gives the live state, but perhaps for its operations. */
  ghost predicate Replays(env: Env, stored: Stored, local: Local)
    requires CB.CheckpointsInRange(env.base)
  {
    var items := stored.items;
    && NoForks(items)
    && LoadHistory(env.tools, env.base, items, |items|).Some?
    && Agree(LoadHistory(env.tools, env.base, items, |items|).value, local)
  }

  /** The live operations are the stored ones; each has a snapshot, and a snapshot that
      shows it finished is the last word on it. */
  ghost predicate Tracks(stored: Stored, local: Local) {
    var h := stored.head;
    && Positions(h) && Snapshotted(stored)
    && (forall id :: id in local.operations <==> id in h.operationPositions)
    && (forall id :: id in local.operations ==>
          && local.operations[id] == StoredOperation(h, id)
          && (Terminal(LastSnapshot(stored.items, |stored.items|, id).value.status) ==>
                LastSnapshot(stored.items, |stored.items|, id).value == local.operations[id]))
  }

  /** A call that has a status waits for known operations, through a tool that is there. */
  predicate CallFits(env: Env, s: Sys, key: StatusKey)
    requires key in s.local.toolCalls
  {
    var call := s.local.toolCalls[key];
    && key.turnID in s.stored.head.ownedTurns && key.turnID in s.stored.head.respondedTurns
    && (call.status.None? ==> call.operations == {} && key !in s.stored.head.toolCallStatuses)
    && (call.status.Some? ==>
          && key in s.stored.head.toolCallStatuses && env.tools.available(call.name)
          && call.operations == Elements(call.status.value.waitingFor)
          && forall id :: id in call.operations ==> id in s.local.operations)
  }

  predicate CallsFit(env: Env, s: Sys) {
    && s.stored.head.respondedTurns <= s.stored.head.ownedTurns
    && (forall key :: key in s.local.toolCalls ==> CallFits(env, s, key))
    && (forall key :: key in s.stored.head.toolCallStatuses ==> key.turnID in s.stored.head.respondedTurns)
  }

  /** The model is called for the current turn, which has no response yet. */
  predicate TurnFits(s: Sys) {
    && s.local.currentTurnID == s.stored.head.latestTurnID
    && (s.vol.modelTurn.Some? ==>
          && s.vol.modelTurn.value == s.local.currentTurnID
          && s.local.currentTurnID in s.stored.head.ownedTurns && s.local.currentTurnID !in s.stored.head.respondedTurns)
    && (!s.vol.pc.Scheduling? ==> AllScheduled(s.local))
  }

  ghost predicate Recoverable(env: Env, s: Sys)
    requires CB.CheckpointsInRange(env.base)
  {
    && CB.CheckpointsInRange(s.local.builder)
    && Sound(s.stored) && Replays(env, s.stored, s.local) && Tracks(s.stored, s.local) && CallsFit(env, s) && TurnFits(s)
  }

  lemma StartRecoverable(env: Env, session: Session)
    requires CB.CheckpointsInRange(env.base)
    ensures Recoverable(env, Start(env, session))
  {
  }

  /** The theorem a crash rests on: a restart rebuilds the live state. */
  lemma RestartIsExact(env: Env, s: Sys)
    requires CB.CheckpointsInRange(env.base) && Recoverable(env, s)
    ensures Restore(env.tools, env.base, s.stored) == Some(s.local)
  {
    hide LoadHistory, Sound, CallsFit, TurnFits, CB.CheckpointsInRange;
    var r := Restore(env.tools, env.base, s.stored).value;
    forall id ensures (id in r.operations <==> id in s.local.operations) && (id in r.operations ==> r.operations[id] == s.local.operations[id]) {
      RestoredOperation(env.tools, env.base, s.stored, id);
    }
    assert r.operations == s.local.operations;
  }

  // ------------------------------------------------------------ persisting

  lemma {:induction false} LoadOfPrefix(tools: Tools, base: CB.State, items: seq<Entry>, more: seq<Entry>, k: nat)
    requires CB.CheckpointsInRange(base) && k <= |items| <= |more| && forall i :: 0 <= i < k ==> items[i] == more[i]
    ensures LoadHistory(tools, base, items, k) == LoadHistory(tools, base, more, k)
  {
    hide RestoreItem;
    if k > 0 { LoadOfPrefix(tools, base, items, more, k - 1); }
  }

  /** A restart does not stumble over this item. */
  predicate Restorable(tools: Tools, l: Local, data: Data) {
    data.StatusData? && RequiresTranslator(data.status) && StatusKey(data.status.turnID, data.status.callID) in l.toolCalls ==>
      tools.available(l.toolCalls[StatusKey(data.status.turnID, data.status.callID)].name)
  }

  /** A self-contained item replays to what it made of the live state. */
  lemma PersistReplays(env: Env, s: Sys, data: Data, operations: seq<Operation>, at: Time)
    requires CB.CheckpointsInRange(env.base) && Recoverable(env, s) && at != 0 && !data.ForkData?
    requires SelfContained(s.local, WithOperations(data, operations)) && Restorable(env.tools, s.local, WithOperations(data, operations))
    requires Persist(env, s, data, operations, at).Some?
    ensures var t := Persist(env, s, data, operations, at).value;
            && CB.CheckpointsInRange(t.local.builder) && Sound(t.stored) && Replays(env, t.stored, t.local)
            && t.stored.items == s.stored.items + [Entry(|s.stored.items| + 1, at, WithOperations(data, operations))]
            && t.local.operations == if data.StatusData? then AddOperations(s.local.operations, operations, |operations|) else s.local.operations
  {
    hide Replay, AddItem, Sound, CB.CheckpointsInRange, LastTurn, TurnsAre, Recorded, Tracks, CallsFit, TurnFits, SelfContained;
    var t := Persist(env, s, data, operations, at).value;
    var items, more := s.stored.items, t.stored.items;
    var full := WithOperations(data, operations);
    SoundFields(s.stored);
    ReplaySound(s.stored, data, operations, at);
    HeadFields(s.stored, data, operations, at);
    LoadOfPrefix(env.tools, env.base, items, more, |items|);
    var l := LoadHistory(env.tools, env.base, items, |items|).value;
    AgreeContained(l, s.local, full);
    AddItemAgrees(env.tools, l, s.local, full);
    AddedNothing(s.local.operations);
  }

  lemma SoundFields(s: Stored)
    requires Sound(s)
    ensures Positions(s.head) && s.head.itemSequence == |s.items| && s.head.ownedTurns <= s.head.turns && Recorded(s.items)
    ensures s.head.latestTurnID == LastTurn(s.items, |s.items|)
  {
  }

  lemma AddedNothing(known: map<string, Operation>)
    ensures AddOperations(known, [], 0) == known
  {
  }

  lemma AgreeContained(a: Local, b: Local, data: Data)
    requires Agree(a, b) && SelfContained(b, data)
    ensures SelfContained(a, data)
  {
  }

  // ------------------------------------------------------ operations tracked

  lemma {:induction false} SnapshotOfItems(items: seq<Entry>, more: seq<Entry>, k: nat, id: string)
    requires k <= |items| <= |more| && forall i :: 0 <= i < k ==> items[i] == more[i]
    ensures LastSnapshot(items, k, id) == LastSnapshot(more, k, id)
  {
    if k > 0 { SnapshotOfItems(items, more, k - 1, id); }
  }

  /** The operations of one more item. */
  function ItemSnapshot(data: Data, id: string): Option<Operation> {
    if data.StatusData? then SnapshotIn(data.status.operations, |data.status.operations|, id) else None
  }

  lemma SnapshotSnoc(items: seq<Entry>, item: Entry, id: string)
    ensures LastSnapshot(items + [item], |items| + 1, id) ==
            if ItemSnapshot(item.data, id).Some? then ItemSnapshot(item.data, id) else LastSnapshot(items, |items|, id)
  {
    SnapshotOfItems(items, items + [item], |items|, id);
  }

  lemma {:induction false} SnapshotAmong(operations: seq<Operation>, n: nat, id: string)
    requires n <= |operations|
    ensures var r := SnapshotIn(operations, n, id);
            && (r.Some? ==> r.value.id == id && r.value in operations)
            && (r.None? ==> forall i :: 0 <= i < n ==> operations[i].id != id)
  {
    if n > 0 { SnapshotAmong(operations, n - 1, id); }
  }

  /** An item that carries nothing but live operations. */
  lemma CarriesLive(s: Sys, t: Sys, item: Entry)
    requires Tracks(s.stored, s.local) && t.stored.items == s.stored.items + [item]
    requires t.stored.head.operations == s.stored.head.operations && t.stored.head.operationPositions == s.stored.head.operationPositions
    requires t.local.operations == s.local.operations
    requires forall o :: item.data.StatusData? && o in item.data.status.operations ==> o.id in s.local.operations && s.local.operations[o.id] == o
    ensures Tracks(t.stored, t.local)
  {
    hide LastSnapshot, SnapshotIn;
    forall id
      ensures LastSnapshot(t.stored.items, |t.stored.items|, id) ==
              if ItemSnapshot(item.data, id).Some? then ItemSnapshot(item.data, id) else LastSnapshot(s.stored.items, |s.stored.items|, id)
      ensures ItemSnapshot(item.data, id).Some? ==> id in s.local.operations && s.local.operations[id] == ItemSnapshot(item.data, id).value
    {
      SnapshotSnoc(s.stored.items, item, id);
      if item.data.StatusData? { SnapshotAmong(item.data.status.operations, |item.data.status.operations|, id); }
    }
  }

  /** The item that initializes operations. */
  lemma CarriesFresh(s: Sys, t: Sys, item: Entry, h: Head)
    requires Tracks(s.stored, s.local) && t.stored.items == s.stored.items + [item] && item.data.StatusData?
    requires h.operations == s.stored.head.operations && h.operationPositions == s.stored.head.operationPositions
    requires var operations := item.data.status.operations;
             && SessionState.Fresh(h, operations)
             && t.stored.head.operations == Initialize(h, operations, |operations|).operations
             && t.stored.head.operationPositions == Initialize(h, operations, |operations|).operationPositions
             && t.local.operations == AddOperations(s.local.operations, operations, |operations|)
    ensures Tracks(t.stored, t.local)
  {
    hide LastSnapshot, SnapshotIn, AddOperations, Initialize, Positions;
    var operations := item.data.status.operations;
    assert Positions(h) by { PositionsOf(s.stored.head, h); }
    InitializeKeeps(h, operations, |operations|);
    PositionsOf(Initialize(h, operations, |operations|), t.stored.head);
    forall id
      ensures LastSnapshot(t.stored.items, |t.stored.items|, id).Some? <==> id in t.stored.head.operationPositions
      ensures id in t.local.operations <==> id in t.stored.head.operationPositions
      ensures id in t.local.operations ==> t.local.operations[id] == StoredOperation(t.stored.head, id)
      ensures id in t.local.operations && Terminal(LastSnapshot(t.stored.items, |t.stored.items|, id).value.status) ==>
                LastSnapshot(t.stored.items, |t.stored.items|, id).value == t.local.operations[id]
    {
      FreshOperation(s, t, item, h, id);
    }
  }

  lemma PositionsOf(a: Head, b: Head)
    requires Positions(a) && a.operations == b.operations && a.operationPositions == b.operationPositions
    ensures Positions(b)
  {
  }

  lemma FreshOperation(s: Sys, t: Sys, item: Entry, h: Head, id: string)
    requires Tracks(s.stored, s.local) && t.stored.items == s.stored.items + [item] && item.data.StatusData? && Positions(h) && Positions(t.stored.head)
    requires h.operations == s.stored.head.operations && h.operationPositions == s.stored.head.operationPositions
    requires var operations := item.data.status.operations;
             && SessionState.Fresh(h, operations)
             && t.stored.head.operations == Initialize(h, operations, |operations|).operations
             && t.stored.head.operationPositions == Initialize(h, operations, |operations|).operationPositions
             && t.local.operations == AddOperations(s.local.operations, operations, |operations|)
    ensures LastSnapshot(t.stored.items, |t.stored.items|, id).Some? <==> id in t.stored.head.operationPositions
    ensures id in t.local.operations <==> id in t.stored.head.operationPositions
    ensures id in t.local.operations ==> t.local.operations[id] == StoredOperation(t.stored.head, id)
    ensures id in t.local.operations && Terminal(LastSnapshot(t.stored.items, |t.stored.items|, id).value.status) ==>
              LastSnapshot(t.stored.items, |t.stored.items|, id).value == t.local.operations[id]
  {
    hide LastSnapshot, SnapshotIn, AddOperations, Initialize, Positions;
    var operations := item.data.status.operations;
    SnapshotSnoc(s.stored.items, item, id);
    AddedOperation(s.local.operations, operations, |operations|, id);
    SnapshotAmong(operations, |operations|, id);
    Initialized(h, operations, |operations|, id);
  }

  lemma {:induction false} Initialized(h: Head, operations: seq<Operation>, n: nat, id: string)
    requires Positions(h) && SessionState.Fresh(h, operations) && n <= |operations|
    ensures var r := Initialize(h, operations, n);
            && Positions(r)
            && match SnapshotIn(operations, n, id)
               case Some(o) => id in r.operationPositions && StoredOperation(r, id) == o
               case None =>
                 && (id in r.operationPositions <==> id in h.operationPositions)
                 && (id in h.operationPositions ==> StoredOperation(r, id) == StoredOperation(h, id))
  {
    hide ValidOperation, Fresh;
    InitializeKeeps(h, operations, n);
    if n > 0 {
      Initialized(h, operations, n - 1, id);
      InitializeKeeps(h, operations, n - 1);
    }
  }

  // ------------------------------------------------------------ every action

  lemma InputRecoverable(env: Env, s: Sys, input: Input, at: Time)
    requires CB.CheckpointsInRange(env.base) && Recoverable(env, s) && at != 0
    requires ReceiveInput(env, s, input, at).Some?
    ensures Recoverable(env, ReceiveInput(env, s, input, at).value)
  {
    hide LoadHistory, Replays, Sound, ValidInput, Tracks, LastSnapshot;
    PersistReplays(env, s, InputData(input), [], at);
    var t := ReceiveInput(env, s, input, at).value;
    CarriesLive(s, t, t.stored.items[|s.stored.items|]);
  }

  /** An update of an unfinished operation, in both places. */
  lemma UpdateTracks(s: Sys, o: Operation, t: Sys)
    requires Tracks(s.stored, s.local) && SaveOperation(s.stored.head, o).Ok?
    requires o.id in s.local.operations ==> Unfinished(s.local.operations[o.id])
    requires t.stored == s.stored.(head := SaveOperation(s.stored.head, o).value)
    requires t.local.operations == s.local.operations[o.id := o]
    ensures Tracks(t.stored, t.local) && o.id in s.local.operations
  {
    hide LastSnapshot, ValidOperation;
    assert Positions(t.stored.head);
  }

  lemma UpdateRecoverable(env: Env, s: Sys, o: Operation)
    requires CB.CheckpointsInRange(env.base) && Recoverable(env, s) && Fair(s, TakeUpdate(o))
    requires ReceiveUpdate(s, o).Some?
    ensures Recoverable(env, ReceiveUpdate(s, o).value)
  {
    hide LoadHistory, Sound, Tracks, LastSnapshot;
    var t := ReceiveUpdate(s, o).value;
    SaveSound(s.stored, o);
    SoundFields(t.stored);
    UpdateTracks(s, o, t);
  }

  lemma DecisionRecoverable(env: Env, s: Sys, turnID: string, at: Time)
    requires CB.CheckpointsInRange(env.base) && Recoverable(env, s) && at != 0
    requires TakeDecision(env, s, turnID, at).Some?
    ensures Recoverable(env, TakeDecision(env, s, turnID, at).value)
  {
    hide LoadHistory, Replays, Sound, Tracks, LastSnapshot, Compacts, CB.Commit;
    var t := TakeDecision(env, s, turnID, at).value;
    SoundFields(s.stored);
    if !s.vol.stop.Hard? && ShouldCall(s) {
      PersistReplays(env, s, TurnData(Turn(turnID, s.local.currentTurnID, Compacts(env, s))), [], at);
      CarriesLive(s, t, t.stored.items[|s.stored.items|]);
    }
  }

  /** The calls a response registers. */
  lemma {:induction false} Registered(calls: map<StatusKey, Call>, turnID: string, output: seq<Item>, n: nat, key: StatusKey)
    requires n <= |output|
    ensures var r := RegisterCalls(calls, turnID, output, n);
            && (key in r <==> key in calls || (key.turnID == turnID && exists i :: 0 <= i < n && output[i].ToolCall? && output[i].callID == key.callID))
            && (key in r && (key !in calls || r[key] != calls[key]) ==> key.turnID == turnID && r[key].status.None? && r[key].operations == {})
  {
    if n > 0 { Registered(calls, turnID, output, n - 1, key); }
  }

  lemma ResponseRecoverable(env: Env, s: Sys, response: CB.Response, at: Time)
    requires CB.CheckpointsInRange(env.base) && Recoverable(env, s) && at != 0
    requires ReceiveResponse(env, s, response, at).Some?
    ensures Recoverable(env, ReceiveResponse(env, s, response, at).value)
  {
    hide LoadHistory, Replays, Sound, Tracks, LastSnapshot, RegisterCalls, CB.AddModelResponse, ApplyCompaction;
    SoundFields(s.stored);
    var turnID := s.local.currentTurnID;
    PersistReplays(env, s, ResponseData(turnID, response), [], at);
    var t := ReceiveResponse(env, s, response, at).value;
    CarriesLive(s, t, t.stored.items[|s.stored.items|]);
    forall key | key in t.local.toolCalls ensures CallFits(env, t, key) {
      if !s.local.compacting { Registered(s.local.toolCalls, turnID, response.output, |response.output|, key); }
      if key in s.local.toolCalls { assert CallFits(env, s, key); }
    }
  }

  /** What recording a status leaves of the calls. */
  lemma StatusCalls(tools: Tools, l: Local, status: ToolCallStatus)
    requires AddStatus(tools, l, status).Some?
    ensures var key, r := StatusKey(status.turnID, status.callID), AddStatus(tools, l, status).value;
            && r.currentTurnID == l.currentTurnID
            && (r.toolCalls == NoteStatus(l.toolCalls, status) || r.toolCalls == NoteStatus(l.toolCalls, status) - {key})
            && (key in r.toolCalls && !RequiresTranslator(status) ==> tools.available(r.toolCalls[key].name))
  {
    hide CB.AddToolResult, AddOperations, AllTerminal, Known, Snapshots;
  }

  /** Operations once known stay known. */
  lemma StillKnown(l: Local, key: StatusKey, operations: seq<Operation>)
    requires key in l.toolCalls && forall id :: id in l.toolCalls[key].operations ==> id in l.operations
    ensures forall id :: id in l.toolCalls[key].operations ==> id in AddOperations(l.operations, operations, |operations|)
  {
    forall id | id in l.toolCalls[key].operations ensures id in AddOperations(l.operations, operations, |operations|) {
      AddedOperation(l.operations, operations, |operations|, id);
    }
  }

  lemma WaitsForKnown(l: Local, status: CallStatus, operations: seq<Operation>)
    requires ValidReferences(status, operations)
    ensures forall id :: id in Elements(status.waitingFor) ==> id in AddOperations(l.operations, operations, |operations|)
  {
    forall id | id in Elements(status.waitingFor) ensures id in AddOperations(l.operations, operations, |operations|) {
      CarriedAlike(l.operations, l.operations, operations, id);
    }
  }

  lemma ScheduleRecoverable(env: Env, s: Sys, key: StatusKey, status: CallStatus, operations: seq<Operation>, at: Time)
    requires CB.CheckpointsInRange(env.base) && Recoverable(env, s) && at != 0
    requires Schedule(env, s, key, status, operations, at).Some?
    ensures Recoverable(env, Schedule(env, s, key, status, operations, at).value)
  {
    hide LoadHistory, Replays, Sound, Tracks, LastSnapshot, AddStatus, AddOperations, Initialize;
    SoundFields(s.stored);
    assert CallFits(env, s, key);
    var full := ToolCallStatus(key.turnID, key.callID, status, operations);
    StatusCalls(env.tools, s.local, full);
    assert SelfContained(s.local, StatusData(full));
    PersistReplays(env, s, StatusOf(key, status), operations, at);
    var t := Schedule(env, s, key, status, operations, at).value;
    var h := s.stored.head.(toolCallStatuses := s.stored.head.toolCallStatuses + {key});
    InitializeKeeps(h, operations, |operations|);
    CarriesFresh(s, t, t.stored.items[|s.stored.items|], h);
    forall k | k in t.local.toolCalls ensures CallFits(env, t, k) {
      assert CallFits(env, s, k);
      StillKnown(s.local, k, operations);
      if k == key { WaitsForKnown(s.local, status, operations); }
    }
  }

  lemma {:induction false} AddedKnown(known: map<string, Operation>, operations: seq<Operation>, n: nat)
    requires n <= |operations| && forall i :: 0 <= i < n ==> operations[i].id in known && known[operations[i].id] == operations[i]
    ensures AddOperations(known, operations, n) == known
  {
    if n > 0 { AddedKnown(known, operations, n - 1); }
  }

  /** The snapshots of known operations are what they are known as. */
  lemma SnapshotsAreKnown(stored: Stored, l: Local, ids: seq<string>)
    requires Tracks(stored, l) && forall i :: 0 <= i < |ids| ==> ids[i] in l.operations
    ensures forall i :: 0 <= i < |ids| ==> Snapshots(ids, l.operations)[i].id == ids[i]
    ensures forall o :: o in Snapshots(ids, l.operations) ==> o.id in l.operations && l.operations[o.id] == o
  {
    hide LastSnapshot;
    forall i | 0 <= i < |ids| ensures Snapshots(ids, l.operations)[i].id == ids[i] {
      assert l.operations[ids[i]] == StoredOperation(stored.head, ids[i]);
    }
  }

  lemma ReconcileRecoverable(env: Env, s: Sys, key: StatusKey, at: Time)
    requires CB.CheckpointsInRange(env.base) && Recoverable(env, s) && at != 0
    requires Reconcile(env, s, key, at).Some?
    ensures Recoverable(env, Reconcile(env, s, key, at).value)
  {
    hide LoadHistory, Replays, Sound, Tracks, LastSnapshot, AddStatus, AddOperations;
    SoundFields(s.stored);
    assert CallFits(env, s, key);
    var status := s.local.toolCalls[key].status.value;
    var operations := Snapshots(status.waitingFor, s.local.operations);
    SnapshotsAreKnown(s.stored, s.local, status.waitingFor);
    AddedKnown(s.local.operations, operations, |operations|);
    var full := ToolCallStatus(key.turnID, key.callID, status, operations);
    StatusCalls(env.tools, s.local, full);
    forall id | id in status.waitingFor ensures id in IDs(operations) {
      var i :| 0 <= i < |status.waitingFor| && status.waitingFor[i] == id;
      assert IDs(operations)[i] == id;
    }
    assert SelfContained(s.local, StatusData(full));
    PersistReplays(env, s, StatusOf(key, status), operations, at);
    var t := Reconcile(env, s, key, at).value;
    CarriesLive(s, t, t.stored.items[|s.stored.items|]);
    forall k | k in t.local.toolCalls ensures CallFits(env, t, k) {
      assert CallFits(env, s, k);
    }
  }

  /** Every step keeps what recovery needs; a crash changes nothing but the volatile part. */
  lemma StepRecoverable(env: Env, s: Sys, action: Action)
    requires CB.CheckpointsInRange(env.base) && Recoverable(env, s) && Fair(s, action)
    requires Step(env, s, action).Some?
    ensures Recoverable(env, Step(env, s, action).value)
    ensures action.Crash? ==> Step(env, s, action).value == Sys(s.stored, s.local, STARTED)
  {
    hide LoadHistory, Replays, Sound, Tracks, Restore, Schedule, ReceiveInput, ReceiveUpdate, Reconcile, TakeDecision, ReceiveResponse;
    match action
    case ScheduleCall(key, status, operations, at) => ScheduleRecoverable(env, s, key, status, operations, at);
    case TakeInput(input, at) => InputRecoverable(env, s, input, at);
    case TakeUpdate(o) => UpdateRecoverable(env, s, o);
    case ReconcileCall(key, at) => ReconcileRecoverable(env, s, key, at);
    case Decide(turnID, at) => DecisionRecoverable(env, s, turnID, at);
    case TakeResponse(response, at) => ResponseRecoverable(env, s, response, at);
    case Crash => RestartIsExact(env, s);
    case _ =>
  }

  /** `t` is reached from `s` by fair steps. */
  predicate Reaches(env: Env, s: Sys, actions: seq<Action>, t: Sys)
    requires CB.CheckpointsInRange(s.local.builder) && CB.CheckpointsInRange(env.base)
    decreases |actions|
  {
    if actions == [] then t == s
    else
      && Fair(s, actions[0]) && Step(env, s, actions[0]).Some?
      && CB.CheckpointsInRange(Step(env, s, actions[0]).value.local.builder)
      && Reaches(env, Step(env, s, actions[0]).value, actions[1..], t)
  }

  lemma {:induction false} RunRecoverable(env: Env, s: Sys, actions: seq<Action>, t: Sys)
    requires CB.CheckpointsInRange(env.base) && Recoverable(env, s) && Reaches(env, s, actions, t)
    ensures Recoverable(env, t)
    decreases |actions|
  {
    hide Recoverable, Step, Fair;
    if actions != [] {
      assert CB.CheckpointsInRange(s.local.builder) by { RecoverableBuilder(env, s); }
      StepRecoverable(env, s, actions[0]);
      RunRecoverable(env, Step(env, s, actions[0]).value, actions[1..], t);
    }
  }

  lemma RecoverableBuilder(env: Env, s: Sys)
    requires CB.CheckpointsInRange(env.base) && Recoverable(env, s)
    ensures CB.CheckpointsInRange(s.local.builder)
  {
  }

  /** In every state that any run reaches, a restart gives back the live state, and never
      fails: whatever tools, inputs, updates, responses and crashes came before. */
  lemma CrashChangesNothing(env: Env, session: Session, actions: seq<Action>, t: Sys)
    requires CB.CheckpointsInRange(env.base) && Reaches(env, Start(env, session), actions, t)
    ensures Restore(env.tools, env.base, t.stored) == Some(t.local)
  {
    StartRecoverable(env, session);
    RunRecoverable(env, Start(env, session), actions, t);
    RestartIsExact(env, t);
  }
}
