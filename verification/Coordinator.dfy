/**
  The coordinator's local state (harness/coordinator/loop.go), on values: what each
  recorded item makes of it, and what a restart rebuilds from the log.

  Tools are uninterpreted: `result` is TranslateResult followed by ToLLMResult.
 */
module Coordinator {
  import opened Llm
  import CB = ContextBuilder
  import opened SessionState

  datatype Tools = Tools(available: string -> bool, result: (string, string, CallStatus, seq<Operation>) -> Option<seq<Part>>)

  datatype Call = Call(name: string, status: Option<CallStatus>, operations: set<string>)

  /** The part of loopState that a restart rebuilds, with the context builder. */
  datatype Local = Local(
    currentTurnID: string, compacting: bool, toolCalls: map<StatusKey, Call>, operations: map<string, Operation>,
    available: int, delivered: int, currentTurnInputs: int, builder: CB.State)

  function NewLocal(builder: CB.State): Local { Local("", false, map[], map[], 0, 0, 0, builder) }

  // ------------------------------------------------------ addItemToLocalState

  function AddInput(l: Local, input: Input): Option<Local> {
    if !ValidInput(input) then None
    else
      match input.kind
      case ExternalInput =>
        if input.payload.Text? then Some(l.(builder := CB.StageUser(l.builder, input.payload.text), available := l.available + 1)) else None
      case ControlInput =>
        (match input.payload.message
         case Heartbeat(reason) => Some(l.(builder := CB.StageUser(l.builder, reason), available := l.available + 1))
         case UpdateSettings(settings) => Some(l.(builder := CB.ApplySettings(l.builder, settings)))
         case _ => Some(l))
      case _ => Some(l)
  }

  function AddTurn(l: Local, turn: Turn): Local {
    l.(currentTurnID := turn.id, compacting := turn.compaction, currentTurnInputs := l.available,
       builder := if turn.compaction then l.builder else CB.Commit(l.builder))
  }

  /** The calls of a response's first `n` items, registered in order. */
  function RegisterCalls(calls: map<StatusKey, Call>, turnID: string, output: seq<Item>, n: nat): map<StatusKey, Call>
    requires n <= |output|
  {
    if n == 0 then calls
    else
      var before := RegisterCalls(calls, turnID, output, n - 1);
      match output[n - 1]
      case ToolCall(callID, name, _) => before[StatusKey(turnID, callID) := Call(name, None, {})]
      case _ => before
  }

  /** applyCompactionResponse. */
  function ApplyCompaction(builder: CB.State, response: CB.Response): CB.State
    requires CB.CheckpointsInRange(builder)
  {
    if !response.complete then builder
    else match CB.Compact(builder, response) case None => builder case Some(rebuilt) => rebuilt
  }

  function AddResponse(l: Local, turnID: string, response: CB.Response): Local
    requires CB.CheckpointsInRange(l.builder)
  {
    if l.compacting && turnID == l.currentTurnID then l.(builder := ApplyCompaction(l.builder, response))
    else
      l.(builder := CB.AddModelResponse(l.builder, response),
         delivered := if turnID == l.currentTurnID then l.currentTurnInputs else l.delivered,
         toolCalls := RegisterCalls(l.toolCalls, turnID, response.output, |response.output|))
  }

  function Elements(ids: seq<string>): set<string> { set id | id in ids }

  /** The operations recorded with a status, over those known. */
  function AddOperations(known: map<string, Operation>, operations: seq<Operation>, n: nat): map<string, Operation>
    requires n <= |operations|
  {
    if n == 0 then known else AddOperations(known, operations, n - 1)[operations[n - 1].id := operations[n - 1]]
  }

  function NoteStatus(calls: map<StatusKey, Call>, status: ToolCallStatus): map<StatusKey, Call> {
    var key := StatusKey(status.turnID, status.callID);
    if key !in calls then calls
    else calls[key := calls[key].(status := Some(status.status), operations := calls[key].operations + Elements(status.status.waitingFor))]
  }

  /** toolCallRequiresTranslator. */
  predicate RequiresTranslator(status: ToolCallStatus) {
    status.status.error == "" || status.status.waitingFor != [] || status.operations != []
  }

  predicate AllTerminal(ids: set<string>, operations: map<string, Operation>) {
    forall id :: id in ids ==> id in operations && Terminal(operations[id].status)
  }

  /** finishToolCall, but for the grace period. */
  function Finish(l: Local, key: StatusKey): Local { l.(toolCalls := l.toolCalls - {key}, available := l.available + 1) }

  predicate Known(ids: seq<string>, call: Call, operations: map<string, Operation>) {
    forall i :: 0 <= i < |ids| ==> ids[i] in call.operations && ids[i] in operations
  }

  function Snapshots(ids: seq<string>, operations: map<string, Operation>): seq<Operation>
    requires forall i :: 0 <= i < |ids| ==> ids[i] in operations
  {
    seq(|ids|, i requires 0 <= i < |ids| => operations[ids[i]])
  }

  /** addToolResultToLocalState. */
  function AddResult(tools: Tools, l: Local, status: ToolCallStatus): Option<Local> {
    var key := StatusKey(status.turnID, status.callID);
    if key !in l.toolCalls then Some(l)
    else
      var call := l.toolCalls[key];
      if !tools.available(call.name) then
        if RequiresTranslator(status) then Some(l)
        else Some(Finish(l.(builder := CB.AddToolResult(l.builder, status.callID, [TextPart(status.status.error)], false)), key))
      else if !Known(status.status.waitingFor, call, l.operations) then Some(l)
      else
        match tools.result(call.name, status.callID, status.status, Snapshots(status.status.waitingFor, l.operations))
        case None => None
        case Some(payload) =>
          var running := !AllTerminal(call.operations, l.operations);
          var next := l.(builder := CB.AddToolResult(l.builder, status.callID, payload, running));
          Some(if running then next else Finish(next, key))
  }

  function AddStatus(tools: Tools, l: Local, status: ToolCallStatus): Option<Local> {
    AddResult(tools, l.(operations := AddOperations(l.operations, status.operations, |status.operations|),
                        toolCalls := NoteStatus(l.toolCalls, status)), status)
  }

  /** addItemToLocalState; None is an error. */
  function AddItem(tools: Tools, l: Local, data: Data): (r: Option<Local>)
    requires CB.CheckpointsInRange(l.builder)
    ensures r.Some? ==> CB.CheckpointsInRange(r.value.builder)
  {
    match data
    case ForkData(_, _) => Some(l.(toolCalls := map[], operations := map[]))
    case InputData(input) => AddInput(l, input)
    case TurnData(turn) => Some(AddTurn(l, turn))
    case ResponseData(turnID, response) => Some(AddResponse(l, turnID, response))
    case StatusData(status) => AddStatus(tools, l, status)
  }

  // ----------------------------------------------------------------- restore

  /** restoreItem: a recorded call may need a tool that is gone. */
  function RestoreItem(tools: Tools, l: Local, data: Data): (r: Option<Local>)
    requires CB.CheckpointsInRange(l.builder)
    ensures r.Some? ==> CB.CheckpointsInRange(r.value.builder)
  {
    if && data.StatusData? && RequiresTranslator(data.status)
       && StatusKey(data.status.turnID, data.status.callID) in l.toolCalls
       && !tools.available(l.toolCalls[StatusKey(data.status.turnID, data.status.callID)].name)
    then None
    else AddItem(tools, l, data)
  }

  /** loadHistory over the first `k` items. */
  function LoadHistory(tools: Tools, builder: CB.State, items: seq<Entry>, k: nat): (r: Option<Local>)
    requires CB.CheckpointsInRange(builder) && k <= |items|
    ensures r.Some? ==> CB.CheckpointsInRange(r.value.builder)
  {
    if k == 0 then Some(NewLocal(builder))
    else match LoadHistory(tools, builder, items, k - 1) case None => None case Some(l) => RestoreItem(tools, l, items[k - 1].data)
  }

  /** restore: the history, then the operations the store says to resume. */
  function Restore(tools: Tools, builder: CB.State, stored: Stored): Option<Local>
    requires CB.CheckpointsInRange(builder)
  {
    match LoadHistory(tools, builder, stored.items, |stored.items|)
    case None => None
    case Some(l) => Some(l.(operations := AddOperations(l.operations, Resume(stored).operations, |Resume(stored).operations|)))
  }

  // ------------------------------------------- items are told by themselves

  /** The same but for the operations. */
  predicate Agree(a: Local, b: Local) { a.(operations := b.operations) == b }

  /** A status that names no operation it does not carry, on a call that waits for no other. */
  predicate SelfContained(l: Local, data: Data) {
    data.StatusData? ==>
      var status := data.status;
      var key := StatusKey(status.turnID, status.callID);
      key in l.toolCalls ==>
        && (forall id :: id in status.status.waitingFor ==> id in IDs(status.operations))
        && (forall id :: id in l.toolCalls[key].operations ==> id in status.status.waitingFor)
  }

  lemma {:induction false} AddedOperation(known: map<string, Operation>, operations: seq<Operation>, n: nat, id: string)
    requires n <= |operations|
    ensures var r := AddOperations(known, operations, n);
            match SnapshotIn(operations, n, id)
            case Some(o) => id in r && r[id] == o
            case None => (id in r <==> id in known) && (id in known ==> r[id] == known[id])
  {
    if n > 0 { AddedOperation(known, operations, n - 1, id); }
  }

  lemma {:induction false} SnapshotFound(operations: seq<Operation>, n: nat, i: nat)
    requires i < n <= |operations|
    ensures SnapshotIn(operations, n, operations[i].id).Some?
  {
    if i < n - 1 { SnapshotFound(operations, n - 1, i); }
  }

  /** On an operation a status carries, whatever was known before does not matter. */
  lemma CarriedAlike(a: map<string, Operation>, b: map<string, Operation>, operations: seq<Operation>, id: string)
    requires id in IDs(operations)
    ensures var n := |operations|;
            && id in AddOperations(a, operations, n) && id in AddOperations(b, operations, n)
            && AddOperations(a, operations, n)[id] == AddOperations(b, operations, n)[id]
  {
    var i :| 0 <= i < |operations| && IDs(operations)[i] == id;
    SnapshotFound(operations, |operations|, i);
    AddedOperation(a, operations, |operations|, id);
    AddedOperation(b, operations, |operations|, id);
  }

  /** Two states that agree still agree after a self-contained item, and both know what
      it carries: replaying needs nothing that is not in the log. */
  lemma AddItemAgrees(tools: Tools, a: Local, b: Local, data: Data)
    requires CB.CheckpointsInRange(a.builder) && Agree(a, b) && SelfContained(a, data) && !data.ForkData?
    ensures var r, s := AddItem(tools, a, data), AddItem(tools, b, data);
            && (r.Some? <==> s.Some?)
            && (r.Some? ==>
                  var operations := if data.StatusData? then data.status.operations else [];
                  && Agree(r.value, s.value)
                  && r.value.operations == AddOperations(a.operations, operations, |operations|)
                  && s.value.operations == AddOperations(b.operations, operations, |operations|))
  {
    hide AddStatus, CB.CheckpointsInRange, CB.ApplySettings, CB.AddModelResponse, CB.Compact, ApplyCompaction, RegisterCalls, ValidInput;
    if data.StatusData? { AddStatusAgrees(tools, a, b, data.status); }
  }

  /** The operations a self-contained status is about, however they are known. */
  lemma ContainedAlike(a: Local, b: Local, status: ToolCallStatus)
    requires Agree(a, b) && SelfContained(a, StatusData(status)) && StatusKey(status.turnID, status.callID) in a.toolCalls
    ensures var n := |status.operations|;
            var ops, others := AddOperations(a.operations, status.operations, n), AddOperations(b.operations, status.operations, n);
            var call := NoteStatus(a.toolCalls, status)[StatusKey(status.turnID, status.callID)];
            && Known(status.status.waitingFor, call, ops) && Known(status.status.waitingFor, call, others)
            && Snapshots(status.status.waitingFor, ops) == Snapshots(status.status.waitingFor, others)
            && (AllTerminal(call.operations, ops) <==> AllTerminal(call.operations, others))
  {
    var n := |status.operations|;
    var ops, others := AddOperations(a.operations, status.operations, n), AddOperations(b.operations, status.operations, n);
    forall id | id in status.status.waitingFor ensures id in ops && id in others && ops[id] == others[id] {
      CarriedAlike(a.operations, b.operations, status.operations, id);
    }
    var call := NoteStatus(a.toolCalls, status)[StatusKey(status.turnID, status.callID)];
    forall i | 0 <= i < |status.status.waitingFor| ensures status.status.waitingFor[i] in call.operations {
      assert status.status.waitingFor[i] in Elements(status.status.waitingFor);
    }
    forall id | id in call.operations ensures id in status.status.waitingFor {}
  }

  lemma AddStatusAgrees(tools: Tools, a: Local, b: Local, status: ToolCallStatus)
    requires Agree(a, b) && SelfContained(a, StatusData(status))
    ensures var r, s := AddStatus(tools, a, status), AddStatus(tools, b, status);
            && (r.Some? <==> s.Some?)
            && (r.Some? ==>
                  && Agree(r.value, s.value)
                  && r.value.operations == AddOperations(a.operations, status.operations, |status.operations|)
                  && s.value.operations == AddOperations(b.operations, status.operations, |status.operations|))
  {
    hide SelfContained, AddOperations, Known, Snapshots, AllTerminal, CB.AddToolResult;
    if StatusKey(status.turnID, status.callID) in a.toolCalls { ContainedAlike(a, b, status); }
  }

  /** What a replayed history knows of an operation is its last snapshot. */
  lemma {:induction false} LoadedOperations(tools: Tools, builder: CB.State, items: seq<Entry>, k: nat, id: string)
    requires CB.CheckpointsInRange(builder) && k <= |items| && LoadHistory(tools, builder, items, k).Some?
    requires forall i :: 0 <= i < |items| ==> !items[i].data.ForkData?
    ensures var l := LoadHistory(tools, builder, items, k).value;
            match LastSnapshot(items, k, id)
            case Some(o) => id in l.operations && l.operations[id] == o
            case None => id !in l.operations
  {
    if k > 0 {
      LoadedOperations(tools, builder, items, k - 1, id);
      var before := LoadHistory(tools, builder, items, k - 1).value;
      var data := items[k - 1].data;
      ItemOperations(tools, before, data);
      if data.StatusData? { AddedOperation(before.operations, data.status.operations, |data.status.operations|, id); }
    }
  }

  lemma ItemOperations(tools: Tools, l: Local, data: Data)
    requires CB.CheckpointsInRange(l.builder) && AddItem(tools, l, data).Some? && !data.ForkData?
    ensures var operations := if data.StatusData? then data.status.operations else [];
            AddItem(tools, l, data).value.operations == AddOperations(l.operations, operations, |operations|)
  {
  }

  // ------------------------------------------ what a restart knows of operations

  /** The stored operation of an ID. */
  function StoredOperation(h: Head, id: string): Operation
    requires Positions(h) && id in h.operationPositions
  {
    h.operations[h.operationPositions[id]]
  }

  /** Every stored operation has a snapshot in the items, and no other has. */
  ghost predicate Snapshotted(s: Stored) {
    forall id :: LastSnapshot(s.items, |s.items|, id).Some? <==> id in s.head.operationPositions
  }

  lemma {:induction false} ResumedSnapshot(s: Stored, n: nat, id: string)
    requires Positions(s.head) && n <= |s.head.operations|
    ensures var r := ResumedOperations(s, n);
            SnapshotIn(r, |r|, id) ==
            if id in s.head.operationPositions && s.head.operationPositions[id] < n && Resumed(s, StoredOperation(s.head, id))
            then Some(StoredOperation(s.head, id)) else None
  {
    if n > 0 {
      ResumedSnapshot(s, n - 1, id);
      var before, value := ResumedOperations(s, n - 1), s.head.operations[n - 1];
      if Resumed(s, value) { SnapshotOfSnoc(before, value, id); } else { assert before + [] == before; }
    }
  }

  lemma {:induction false} SnapshotOfPrefix(a: seq<Operation>, b: seq<Operation>, n: nat, id: string)
    requires n <= |a| <= |b| && forall i :: 0 <= i < n ==> a[i] == b[i]
    ensures SnapshotIn(a, n, id) == SnapshotIn(b, n, id)
  {
    if n > 0 { SnapshotOfPrefix(a, b, n - 1, id); }
  }

  lemma SnapshotOfSnoc(a: seq<Operation>, value: Operation, id: string)
    ensures SnapshotIn(a + [value], |a| + 1, id) == if value.id == id then Some(value) else SnapshotIn(a, |a|, id)
  {
    SnapshotOfPrefix(a, a + [value], |a|, id);
  }

  /** After a restart an operation is as stored, unless both the store and the history
      show it finished: then it is as the history shows it. */
  lemma RestoredOperation(tools: Tools, builder: CB.State, s: Stored, id: string)
    requires CB.CheckpointsInRange(builder) && Positions(s.head) && Snapshotted(s)
    requires forall i :: 0 <= i < |s.items| ==> !s.items[i].data.ForkData?
    requires Restore(tools, builder, s).Some?
    ensures var r := Restore(tools, builder, s).value.operations;
            && (id in r <==> id in s.head.operationPositions)
            && (id in r ==> r[id] == if Resumed(s, StoredOperation(s.head, id)) then StoredOperation(s.head, id)
                                     else LastSnapshot(s.items, |s.items|, id).value)
  {
    var n := |s.head.operations|;
    var l := LoadHistory(tools, builder, s.items, |s.items|).value;
    LoadedOperations(tools, builder, s.items, |s.items|, id);
    ResumedSnapshot(s, n, id);
    AddedOperation(l.operations, ResumedOperations(s, n), |ResumedOperations(s, n)|, id);
  }

  /** A restart knows exactly the stored operations if and only if no operation changed
      after the history showed it finished. */
  lemma RestoredOperationsExact(tools: Tools, builder: CB.State, s: Stored)
    requires CB.CheckpointsInRange(builder) && Positions(s.head) && Snapshotted(s)
    requires forall i :: 0 <= i < |s.items| ==> !s.items[i].data.ForkData?
    requires Restore(tools, builder, s).Some?
    ensures (forall id :: id in s.head.operationPositions ==>
               id in Restore(tools, builder, s).value.operations && Restore(tools, builder, s).value.operations[id] == StoredOperation(s.head, id))
            <==>
            forall id :: id in s.head.operationPositions && Terminal(StoredOperation(s.head, id).status)
                         && Terminal(LastSnapshot(s.items, |s.items|, id).value.status) ==>
                           LastSnapshot(s.items, |s.items|, id).value == StoredOperation(s.head, id)
  {
    forall id { RestoredOperation(tools, builder, s, id); }
  }

  // ------------------------------- an operation that changes after its end

  /** Tools that are there and translate anything. */
  const WILLING := Tools(name => true, (name, callID, status, operations) => Some([]))

  lemma {:induction false} WillingLoads(builder: CB.State, items: seq<Entry>, k: nat)
    requires CB.CheckpointsInRange(builder) && k <= |items| && forall i :: 0 <= i < |items| ==> !items[i].data.InputData?
    ensures LoadHistory(WILLING, builder, items, k).Some?
  {
    hide CB.AddToolResult, AddTurn, AddResponse, Known;
    if k > 0 { WillingLoads(builder, items, k - 1); }
  }

  const ASKED := CallStatus("", false, ["op"])
  const READY := Operation("op", "value", 1, Ready, 0, None, None)
  const DONE := READY.(status := Completed)
  const CHANGED := DONE.(state := Some(Json("{}", true)))

  /** A session with a turn whose call waits for an operation that is ready. */
  lemma ReadyAndRecorded() returns (s: Stored)
    ensures Sound(s) && s.head.ownedTurns == {"turn"} && s.head.toolCallStatuses == {StatusKey("turn", "call")}
    ensures s.head.operations == [READY] && s.head.operationPositions == map["op" := 0]
    ensures |s.items| == 2 && s.items[0].data.TurnData? && s.items[1].data == StatusData(ToolCallStatus("turn", "call", ASKED, [READY]))
  {
    hide Sound;
    var status := StatusData(ToolCallStatus("turn", "call", ASKED, []));
    var began := NewStored(Session("session", 1));
    NewSound(began.head.session);
    var turn := TurnData(Turn("turn", "", false));
    ReplaySound(began, turn, [], 1);
    var asked := Replay(began, turn, [], 1).value;
    assert IDs([READY]) == ["op"];
    assert ValidReferences(ASKED, [READY]);
    ReplaySound(asked, status, [READY], 1);
    s := Replay(asked, status, [READY], 1).value;
    assert Initialize(asked.head.(toolCallStatuses := asked.head.toolCallStatuses + {StatusKey("turn", "call")}), [READY], 0).operations == [];
  }

  /** The operation is saved as completed, and its call recorded with that. */
  lemma FinishedAndRecorded() returns (s: Stored)
    ensures Sound(s) && Snapshotted(s) && |s.items| == 3
    ensures s.items[0].data.TurnData? && s.items[1].data.StatusData? && s.items[2].data.StatusData?
    ensures LastSnapshot(s.items, 3, "op") == Some(DONE)
    ensures "op" in s.head.operationPositions && StoredOperation(s.head, "op") == DONE
  {
    hide Sound, LastSnapshot, Snapshotted, Initialize, ValidReferences;
    var ready := ReadyAndRecorded();
    var status := StatusData(ToolCallStatus("turn", "call", ASKED, []));
    SaveSound(ready, DONE);
    var done := ready.(head := SaveOperation(ready.head, DONE).value);
    assert done.head.operations == [DONE];
    ReplaySound(done, status, [DONE], 1);
    s := Replay(done, status, [DONE], 1).value;
    assert s.head.operations == [DONE] && s.head.operationPositions == map["op" := 0];
    SnapshotsOf(s);
  }

  lemma SnapshotsOf(s: Stored)
    requires |s.items| == 3 && s.items[0].data.TurnData? && s.items[1].data.StatusData? && s.items[2].data.StatusData?
    requires s.items[1].data.status.operations == [READY] && s.items[2].data.status.operations == [DONE]
    requires s.head.operationPositions == map["op" := 0]
    ensures LastSnapshot(s.items, 3, "op") == Some(DONE) && Snapshotted(s)
  {
    forall id ensures LastSnapshot(s.items, 3, id) == if id == "op" then Some(DONE) else None {
      assert SnapshotIn([READY], 0, id).None? && SnapshotIn([DONE], 0, id).None?;
      assert LastSnapshot(s.items, 1, id) == LastSnapshot(s.items, 0, id);
    }
  }

  /** The store does not refuse an update of an operation that has finished; after one, a
      restart knows an older state of it. */
  lemma RestartForgetsALateChange(builder: CB.State) returns (s: Stored)
    requires CB.CheckpointsInRange(builder)
    ensures Sound(s) && Snapshotted(s) && SaveOperation(s.head, CHANGED).Ok?
    ensures var late := s.(head := SaveOperation(s.head, CHANGED).value);
            && Sound(late) && Restore(WILLING, builder, late).Some? && "op" in late.head.operationPositions
            && "op" in Restore(WILLING, builder, late).value.operations
            && Restore(WILLING, builder, late).value.operations["op"] == DONE != StoredOperation(late.head, "op")
  {
    hide Sound, LoadHistory, LastSnapshot, Snapshotted;
    s := FinishedAndRecorded();
    PositionsFit(s);
    SaveSound(s, CHANGED);
    var late := s.(head := SaveOperation(s.head, CHANGED).value);
    PositionsFit(late);
    StillSnapshotted(s, late);
    WillingLoads(builder, late.items, 3);
    RestoredOperation(WILLING, builder, late, "op");
  }

  lemma PositionsFit(s: Stored)
    requires Sound(s)
    ensures Positions(s.head)
  {
  }

  lemma StillSnapshotted(s: Stored, t: Stored)
    requires Snapshotted(s) && t.items == s.items && t.head.operationPositions == s.head.operationPositions
    ensures Snapshotted(t)
  {
    hide LastSnapshot;
    forall id ensures LastSnapshot(t.items, |t.items|, id).Some? <==> id in t.head.operationPositions {
      assert LastSnapshot(s.items, |s.items|, id).Some? <==> id in s.head.operationPositions;
    }
  }
}
