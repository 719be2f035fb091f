/**
  Delivery accounting, hard stops and the hand-over to the operation manager
  (harness/coordinator/loop.go), over every run.
 */
module CoordinatorSafety {
  import opened Llm
  import CB = ContextBuilder
  import opened SessionState
  import opened Coordinator
  import opened CoordinatorRuns
  import opened CoordinatorRecovery

  // ------------------------------------------------------------- accounting

  predicate IsAsk(data: Data) {
    data.InputData? && (data.input.kind.ExternalInput? || (data.input.kind.ControlInput? && data.input.payload.Control? && data.input.payload.message.Heartbeat?))
  }

  /** The external inputs and heartbeats among the first `k` items. */
  function Asks(items: seq<Entry>, k: nat): nat
    requires k <= |items|
  {
    if k == 0 then 0 else Asks(items, k - 1) + if IsAsk(items[k - 1].data) then 1 else 0
  }

  /** The last turn among the first `k` items is a compaction. */
  predicate LastCompacts(items: seq<Entry>, k: nat)
    requires k <= |items|
  {
    k > 0 && if items[k - 1].data.TurnData? then items[k - 1].data.turn.compaction else LastCompacts(items, k - 1)
  }

  /** Item `i` answers the latest turn. */
  predicate Answers(items: seq<Entry>, i: nat)
    requires i < |items|
  {
    items[i].data.ResponseData? && items[i].data.turnID == LastTurn(items, i)
  }

  function Keys(turnID: string, output: seq<Item>): set<StatusKey> {
    set i | 0 <= i < |output| && output[i].ToolCall? :: StatusKey(turnID, output[i].callID)
  }

  /** The calls that the responses among the first `k` items ask for. */
  function Calls(items: seq<Entry>, k: nat): set<StatusKey>
    requires k <= |items|
  {
    if k == 0 then {}
    else
      var before := Calls(items, k - 1);
      match items[k - 1].data
      case ResponseData(turnID, response) =>
        if Answers(items, k - 1) && LastCompacts(items, k - 1) then before else before + Keys(turnID, response.output)
      case _ => before
  }

  /** Where the latest regular turn began that was answered while it was the latest. */
  function Answered(items: seq<Entry>, k: nat): (t: Option<nat>)
    requires k <= |items|
    ensures t.Some? ==> t.value < k
  {
    if k == 0 then None
    else if Answers(items, k - 1) && !LastCompacts(items, k - 1) && TurnStart(items, k - 1).Some? then TurnStart(items, k - 1)
    else Answered(items, k - 1)
  }

  /** Where the last turn among the first `k` items is. */
  function TurnStart(items: seq<Entry>, k: nat): (t: Option<nat>)
    requires k <= |items|
    ensures t.Some? ==> t.value < k && items[t.value].data.TurnData? && items[t.value].data.turn.id == LastTurn(items, k)
    ensures t.None? ==> LastTurn(items, k) == ""
  {
    if k == 0 then None else if items[k - 1].data.TurnData? then Some(k - 1) else TurnStart(items, k - 1)
  }

  /** No turn is answered twice, and none without a name. */
  predicate AnsweredOnce(items: seq<Entry>) {
    && (forall i :: 0 <= i < |items| && items[i].data.ResponseData? ==> items[i].data.turnID != "")
    && (forall i, j :: 0 <= i < j < |items| && items[i].data.ResponseData? && items[j].data.ResponseData? ==>
          items[i].data.turnID != items[j].data.turnID)
  }

  /** What was available when the turn at `t` began. */
  function AvailableAt(env: Env, items: seq<Entry>, t: Option<nat>): int
    requires CB.CheckpointsInRange(env.base) && (t.Some? ==> t.value <= |items|)
  {
    if t.None? then 0
    else match LoadHistory(env.tools, env.base, items, t.value) case None => 0 case Some(l) => l.available
  }

  /** The counters tell what the first `k` items say. */
  ghost predicate Accounts(env: Env, items: seq<Entry>, k: nat, l: Local)
    requires CB.CheckpointsInRange(env.base) && k <= |items|
  {
    && l.currentTurnID == LastTurn(items, k) && l.compacting == LastCompacts(items, k)
    && l.toolCalls.Keys <= Calls(items, k)
    && l.available == Asks(items, k) + |Calls(items, k) - l.toolCalls.Keys|
    && l.currentTurnInputs == AvailableAt(env, items, TurnStart(items, k))
    && l.delivered == AvailableAt(env, items, Answered(items, k))
    && 0 <= l.delivered <= l.currentTurnInputs <= l.available
  }

  /** Calls belong to turns that were answered. */
  lemma {:induction false} CallsAnswered(items: seq<Entry>, k: nat, key: StatusKey)
    requires k <= |items| && key in Calls(items, k)
    ensures exists i :: 0 <= i < k && items[i].data.ResponseData? && items[i].data.turnID == key.turnID
  {
    if key in Calls(items, k - 1) {
      CallsAnswered(items, k - 1, key);
    } else {
      assert items[k - 1].data.ResponseData? && items[k - 1].data.turnID == key.turnID;
    }
  }

  lemma RegisteredKeys(calls: map<StatusKey, Call>, turnID: string, output: seq<Item>)
    ensures RegisterCalls(calls, turnID, output, |output|).Keys == calls.Keys + Keys(turnID, output)
  {
    forall key ensures key in RegisterCalls(calls, turnID, output, |output|) <==> key in calls || key in Keys(turnID, output) {
      Registered(calls, turnID, output, |output|, key);
      if key in Keys(turnID, output) {
        var i :| 0 <= i < |output| && output[i].ToolCall? && StatusKey(turnID, output[i].callID) == key;
        assert output[i].callID == key.callID;
      }
    }
  }

  /** A response to a turn without one: its calls are new, and none of them is finished. */
  lemma ResponseAccounts(items: seq<Entry>, k: nat, turnID: string, output: seq<Item>, calls: map<StatusKey, Call>)
    requires k < |items| && AnsweredOnce(items) && items[k].data.ResponseData? && items[k].data.turnID == turnID
    requires calls.Keys <= Calls(items, k)
    ensures var after := RegisterCalls(calls, turnID, output, |output|);
            && after.Keys <= Calls(items, k) + Keys(turnID, output)
            && (Calls(items, k) + Keys(turnID, output)) - after.Keys == Calls(items, k) - calls.Keys
  {
    RegisteredKeys(calls, turnID, output);
    forall key | key in Keys(turnID, output) ensures key !in Calls(items, k) {
      if key in Calls(items, k) { CallsAnswered(items, k, key); }
    }
  }

  /** What a status does to the counters: a call that finishes is counted, once. */
  lemma StatusAccounts(tools: Tools, l: Local, status: ToolCallStatus, calls: set<StatusKey>)
    requires AddStatus(tools, l, status).Some? && l.toolCalls.Keys <= calls
    ensures var r := AddStatus(tools, l, status).value;
            && r.toolCalls.Keys <= calls
            && r.available - |calls - r.toolCalls.Keys| == l.available - |calls - l.toolCalls.Keys|
            && r.available >= l.available
            && r.currentTurnID == l.currentTurnID && r.compacting == l.compacting
            && r.currentTurnInputs == l.currentTurnInputs && r.delivered == l.delivered
  {
    hide AddStatus;
    StatusShape(tools, l, status);
    var key := StatusKey(status.turnID, status.callID);
    if key in l.toolCalls { OneMoreFinished(calls, l.toolCalls.Keys, key); }
  }

  /** A status finishes its call or leaves it open. */
  lemma StatusShape(tools: Tools, l: Local, status: ToolCallStatus)
    requires AddStatus(tools, l, status).Some?
    ensures var key, r := StatusKey(status.turnID, status.callID), AddStatus(tools, l, status).value;
            && (|| (r.toolCalls.Keys == l.toolCalls.Keys && r.available == l.available)
                || (key in l.toolCalls && r.toolCalls.Keys == l.toolCalls.Keys - {key} && r.available == l.available + 1))
            && r.currentTurnID == l.currentTurnID && r.compacting == l.compacting
            && r.currentTurnInputs == l.currentTurnInputs && r.delivered == l.delivered
  {
    hide CB.AddToolResult, AddOperations, AllTerminal, Known, Snapshots, RequiresTranslator;
    assert NoteStatus(l.toolCalls, status).Keys == l.toolCalls.Keys;
  }

  lemma OneMoreFinished(calls: set<StatusKey>, open: set<StatusKey>, key: StatusKey)
    requires open <= calls && key in open
    ensures |calls - (open - {key})| == |calls - open| + 1
  {
    assert calls - (open - {key}) == (calls - open) + {key};
  }

  lemma InputCounts(env: Env, items: seq<Entry>, k: nat, before: Local)
    requires CB.CheckpointsInRange(env.base) && k < |items| && items[k].data.InputData? && Accounts(env, items, k, before)
    requires AddInput(before, items[k].data.input).Some?
    ensures Accounts(env, items, k + 1, AddInput(before, items[k].data.input).value)
  {
    hide CB.CheckpointsInRange, AddInput, AvailableAt, Asks, Calls, LastTurn, LastCompacts, TurnStart, Answered;
    QuietItem(items, k);
    AskedItem(items, k);
    InputEffect(before, items[k].data.input);
  }

  lemma InputEffect(l: Local, input: Input)
    requires AddInput(l, input).Some?
    ensures AddInput(l, input).value ==
            l.(builder := AddInput(l, input).value.builder, available := l.available + if IsAsk(InputData(input)) then 1 else 0)
  {
    hide CB.ApplySettings, ValidControl;
  }

  /** Inputs and statuses begin no turn and answer none. */
  lemma QuietItem(items: seq<Entry>, k: nat)
    requires k < |items| && (items[k].data.InputData? || items[k].data.StatusData?)
    ensures Calls(items, k + 1) == Calls(items, k) && LastTurn(items, k + 1) == LastTurn(items, k)
    ensures LastCompacts(items, k + 1) <==> LastCompacts(items, k)
    ensures TurnStart(items, k + 1) == TurnStart(items, k) && Answered(items, k + 1) == Answered(items, k)
  {
  }

  lemma AskedItem(items: seq<Entry>, k: nat)
    requires k < |items|
    ensures Asks(items, k + 1) == Asks(items, k) + if IsAsk(items[k].data) then 1 else 0
  {
  }

  lemma TurnCounts(env: Env, items: seq<Entry>, k: nat, before: Local)
    requires CB.CheckpointsInRange(env.base) && k < |items| && items[k].data.TurnData? && Accounts(env, items, k, before)
    requires LoadHistory(env.tools, env.base, items, k) == Some(before)
    ensures Accounts(env, items, k + 1, AddTurn(before, items[k].data.turn))
  {
    hide CB.CheckpointsInRange, LoadHistory, Asks, Calls, LastTurn, LastCompacts, TurnStart, Answered, CB.Commit;
    PlainAsks(items, k);
    TurnItem(items, k);
  }

  lemma TurnItem(items: seq<Entry>, k: nat)
    requires k < |items| && items[k].data.TurnData?
    ensures Calls(items, k + 1) == Calls(items, k) && LastTurn(items, k + 1) == items[k].data.turn.id
    ensures LastCompacts(items, k + 1) <==> items[k].data.turn.compaction
    ensures TurnStart(items, k + 1) == Some(k) && Answered(items, k + 1) == Answered(items, k)
  {
  }

  lemma PlainAsks(items: seq<Entry>, k: nat)
    requires k < |items| && !items[k].data.InputData?
    ensures Asks(items, k + 1) == Asks(items, k)
  {
  }

  lemma ResponseCounts(env: Env, items: seq<Entry>, k: nat, before: Local)
    requires CB.CheckpointsInRange(env.base) && k < |items| && items[k].data.ResponseData? && Accounts(env, items, k, before)
    requires AnsweredOnce(items) && CB.CheckpointsInRange(before.builder)
    ensures Accounts(env, items, k + 1, AddResponse(before, items[k].data.turnID, items[k].data.response))
  {
    hide CB.CheckpointsInRange, AvailableAt, RegisterCalls, Keys, AnsweredOnce, Asks, CB.AddModelResponse, ApplyCompaction,
         Calls, LastTurn, LastCompacts, TurnStart, Answered;
    var turnID, response := items[k].data.turnID, items[k].data.response;
    PlainAsks(items, k);
    ResponseItem(items, k);
    ResponseAccounts(items, k, turnID, response.output, before.toolCalls);
  }

  lemma ResponseItem(items: seq<Entry>, k: nat)
    requires k < |items| && items[k].data.ResponseData? && AnsweredOnce(items)
    ensures LastTurn(items, k + 1) == LastTurn(items, k) && (LastCompacts(items, k + 1) <==> LastCompacts(items, k))
    ensures TurnStart(items, k + 1) == TurnStart(items, k)
    ensures Answered(items, k + 1) == if items[k].data.turnID == LastTurn(items, k) && !LastCompacts(items, k) then TurnStart(items, k) else Answered(items, k)
    ensures Calls(items, k + 1) ==
            if items[k].data.turnID == LastTurn(items, k) && LastCompacts(items, k) then Calls(items, k)
            else Calls(items, k) + Keys(items[k].data.turnID, items[k].data.response.output)
  {
    if Answers(items, k) { NamedTurn(items, k); }
  }

  lemma StatusCounts(env: Env, items: seq<Entry>, k: nat, before: Local)
    requires CB.CheckpointsInRange(env.base) && k < |items| && items[k].data.StatusData? && Accounts(env, items, k, before)
    requires AddStatus(env.tools, before, items[k].data.status).Some?
    ensures Accounts(env, items, k + 1, AddStatus(env.tools, before, items[k].data.status).value)
  {
    hide CB.CheckpointsInRange, AvailableAt, AddStatus, Asks, Calls, LastTurn, LastCompacts, TurnStart, Answered;
    PlainAsks(items, k);
    QuietItem(items, k);
    StatusAccounts(env.tools, before, items[k].data.status, Calls(items, k));
  }

  /** The counters always tell what the log says: what is available is every external
      input, heartbeat and finished call, each once; what is delivered is what there was
      when the latest answered turn began. */
  lemma {:induction false} HistoryAccounts(env: Env, items: seq<Entry>, k: nat)
    requires CB.CheckpointsInRange(env.base) && k <= |items| && NoForks(items) && AnsweredOnce(items)
    requires LoadHistory(env.tools, env.base, items, k).Some?
    ensures Accounts(env, items, k, LoadHistory(env.tools, env.base, items, k).value)
  {
    hide CB.CheckpointsInRange, AddResponse, AddInput, AddTurn, AddStatus, AnsweredOnce;
    if k == 0 {
      assert Calls(items, 0) - NewLocal(env.base).toolCalls.Keys == {};
    } else {
      HistoryAccounts(env, items, k - 1);
      var before := LoadHistory(env.tools, env.base, items, k - 1).value;
      HistoryStep(env, items, k, before);
    }
  }

  lemma HistoryStep(env: Env, items: seq<Entry>, k: nat, before: Local)
    requires CB.CheckpointsInRange(env.base) && 0 < k <= |items| && NoForks(items) && AnsweredOnce(items)
    requires LoadHistory(env.tools, env.base, items, k - 1) == Some(before) && Accounts(env, items, k - 1, before)
    requires LoadHistory(env.tools, env.base, items, k).Some?
    ensures Accounts(env, items, k, LoadHistory(env.tools, env.base, items, k).value)
  {
    hide CB.CheckpointsInRange, AddResponse, AddInput, AddTurn, AddStatus, AnsweredOnce, Accounts, NoForks;
    NotAFork(items, k - 1);
    match items[k - 1].data
    case InputData(_) => InputCounts(env, items, k - 1, before);
    case TurnData(_) => TurnCounts(env, items, k - 1, before);
    case ResponseData(_, _) => ResponseCounts(env, items, k - 1, before);
    case StatusData(_) => StatusCounts(env, items, k - 1, before);
    case _ =>
  }

  lemma NotAFork(items: seq<Entry>, i: nat)
    requires i < |items| && NoForks(items)
    ensures !items[i].data.ForkData?
  {
  }

  lemma NamedTurn(items: seq<Entry>, i: nat)
    requires i < |items| && AnsweredOnce(items) && Answers(items, i)
    ensures TurnStart(items, i).Some?
  {
  }

  // -------------------------------------------------------- over whole runs

  /** The store noted every response. */
  ghost predicate ResponsesNoted(stored: Stored) {
    && AnsweredOnce(stored.items)
    && (forall i :: 0 <= i < |stored.items| && stored.items[i].data.ResponseData? ==>
          stored.items[i].data.turnID in stored.head.respondedTurns)
  }

  /** An operation some recorded status carries. */
  predicate IsRecorded(items: seq<Entry>, id: string) { LastSnapshot(items, |items|, id).Some? }

  /** What was handed to the manager, or is about to be, is known; and a hard stop that took
      hold leaves no model call and no scheduling under way. */
  predicate StopFits(s: Sys) {
    && (forall id :: id in s.vol.handed ==> id in s.local.operations)
    && (forall o :: o in s.vol.submitted ==> o.id in s.local.operations)
    && (s.vol.canceled ==> s.vol.stop.Hard? && s.vol.modelTurn.None? && !s.vol.pc.Scheduling?)
  }

  ghost predicate Safe(s: Sys) { ResponsesNoted(s.stored) && StopFits(s) }

  lemma ReplayNotes(stored: Stored, data: Data, operations: seq<Operation>, at: Time)
    requires Positions(stored.head) && stored.head.itemSequence == |stored.items| && stored.head.ownedTurns <= stored.head.turns
    requires "" !in stored.head.turns && ResponsesNoted(stored) && Replay(stored, data, operations, at).Ok?
    ensures ResponsesNoted(Replay(stored, data, operations, at).value)
  {
    hide Initialize, Positions, ValidInput;
    HeadFields(stored, data, operations, at);
    if data.StatusData? { StatusHead(stored.head, data.status, operations, at); RespondedKept(stored.head, data.status, operations, at); }
  }

  lemma RespondedKept(h: Head, status: ToolCallStatus, operations: seq<Operation>, at: Time)
    requires Positions(h) && AppendStatus(h, status, operations, at).Ok?
    ensures AppendStatus(h, status, operations, at).value.head.respondedTurns == h.respondedTurns
  {
    StatusHead(h, status, operations, at);
  }

  lemma NoUnnamedTurn(s: Stored)
    requires Sound(s)
    ensures "" !in s.head.turns
  {
    forall i: nat ensures !IsTurn(s.items, i, "") {}
  }

  lemma PersistSafe(env: Env, s: Sys, data: Data, operations: seq<Operation>, at: Time)
    requires CB.CheckpointsInRange(s.local.builder) && Sound(s.stored) && Safe(s) && Persist(env, s, data, operations, at).Some?
    ensures var t := Persist(env, s, data, operations, at).value;
            && ResponsesNoted(t.stored)
            && (forall id :: id in s.local.operations ==> id in t.local.operations)
            && (data.StatusData? ==> forall o :: o in operations ==> o.id in t.local.operations)
  {
    hide AddStatus, Replay, Sound, ResponsesNoted, StopFits, AddOperations;
    SoundFields(s.stored);
    NoUnnamedTurn(s.stored);
    ReplayNotes(s.stored, data, operations, at);
    HeadFields(s.stored, data, operations, at);
    ItemOperations(env.tools, s.local, WithOperations(data, operations));
    var added := if data.StatusData? then operations else [];
    forall id | id in s.local.operations ensures id in AddOperations(s.local.operations, added, |added|) {
      AddedOperation(s.local.operations, added, |added|, id);
    }
    forall o | data.StatusData? && o in operations ensures o.id in AddOperations(s.local.operations, added, |added|) {
      var i :| 0 <= i < |operations| && operations[i] == o;
      SnapshotFound(added, |added|, i);
      AddedOperation(s.local.operations, added, |added|, o.id);
    }
  }

  lemma StepSafe(env: Env, s: Sys, action: Action)
    requires CB.CheckpointsInRange(env.base) && Recoverable(env, s) && Safe(s) && Fair(s, action)
    requires Step(env, s, action).Some?
    ensures Safe(Step(env, s, action).value)
  {
    hide Recoverable, Sound, ResponsesNoted, AddItem, Replay, Compacts, AllScheduled, Pending, Idle, ShouldCall, WithSiblings, AllTerminal, Translates;
    RecoverableSound(env, s);
    match action
    case ScheduleCall(key, status, operations, at) => PersistSafe(env, s, StatusOf(key, status), operations, at);
    case TakeInput(input, at) => PersistSafe(env, s, InputData(input), [], at);
    case ReconcileCall(key, at) =>
      PersistSafe(env, s, StatusOf(key, s.local.toolCalls[key].status.value), Snapshots(s.local.toolCalls[key].status.value.waitingFor, s.local.operations), at);
    case Decide(turnID, at) =>
      if !s.vol.stop.Hard? && ShouldCall(s) { PersistSafe(env, s, TurnData(Turn(turnID, s.local.currentTurnID, Compacts(env, s))), [], at); }
    case TakeResponse(response, at) => PersistSafe(env, s, ResponseData(s.local.currentTurnID, response), [], at);
    case TakeUpdate(o) => UpdateNotes(s.stored, o);
    case _ =>
  }

  lemma UpdateNotes(s: Stored, o: Operation)
    requires ResponsesNoted(s)
    ensures SaveOperation(s.head, o).Ok? ==> ResponsesNoted(s.(head := SaveOperation(s.head, o).value))
  {
  }

  lemma RecoverableSound(env: Env, s: Sys)
    requires CB.CheckpointsInRange(env.base) && Recoverable(env, s)
    ensures Sound(s.stored) && CB.CheckpointsInRange(s.local.builder)
  {
  }

  lemma StartSafe(env: Env, session: Session)
    requires CB.CheckpointsInRange(env.base)
    ensures Safe(Start(env, session))
  {
  }

  lemma {:induction false} RunSafe(env: Env, s: Sys, actions: seq<Action>, t: Sys)
    requires CB.CheckpointsInRange(env.base) && Recoverable(env, s) && Safe(s)
    requires CB.CheckpointsInRange(s.local.builder) && Reaches(env, s, actions, t)
    ensures Recoverable(env, t) && Safe(t)
    decreases |actions|
  {
    hide Recoverable, Safe, Step, Fair;
    if actions != [] {
      StepRecoverable(env, s, actions[0]);
      StepSafe(env, s, actions[0]);
      RunSafe(env, Step(env, s, actions[0]).value, actions[1..], t);
    }
  }

  /** In every state of every run the counters account for exactly what the log holds. */
  lemma DeliveryAccounting(env: Env, session: Session, actions: seq<Action>, t: Sys)
    requires CB.CheckpointsInRange(env.base) && Reaches(env, Start(env, session), actions, t)
    ensures Accounts(env, t.stored.items, |t.stored.items|, t.local)
  {
    hide Step, Sound, Tracks, CallsFit, Accounts;
    StartRecoverable(env, session);
    StartSafe(env, session);
    RunSafe(env, Start(env, session), actions, t);
    var items := t.stored.items;
    HistoryAccounts(env, items, |items|);
    AccountsAgree(env, items, |items|, LoadHistory(env.tools, env.base, items, |items|).value, t.local);
  }

  lemma AccountsAgree(env: Env, items: seq<Entry>, k: nat, a: Local, b: Local)
    requires CB.CheckpointsInRange(env.base) && k <= |items| && Accounts(env, items, k, a) && Agree(a, b)
    ensures Accounts(env, items, k, b)
  {
    hide LoadHistory, Asks, Calls, CB.CheckpointsInRange;
  }

  lemma {:induction false} OnlyMore(items: seq<Entry>, j: nat, k: nat)
    requires j <= k <= |items|
    ensures Asks(items, j) <= Asks(items, k) && Calls(items, j) <= Calls(items, k)
  {
    if j < k { OnlyMore(items, j, k - 1); }
  }

  lemma {:induction false} LoadedBefore(env: Env, items: seq<Entry>, j: nat, k: nat)
    requires CB.CheckpointsInRange(env.base) && j <= k <= |items| && LoadHistory(env.tools, env.base, items, k).Some?
    ensures LoadHistory(env.tools, env.base, items, j).Some?
  {
    if j < k { LoadedBefore(env, items, j, k - 1); }
  }

  /** A run that stops because it is idle has delivered everything: since the latest
      answered turn began, nothing was asked and no call made, and every call had finished
      by then. */
  lemma IdleMeansDelivered(env: Env, session: Session, actions: seq<Action>, s: Sys)
    requires CB.CheckpointsInRange(env.base) && Reaches(env, Start(env, session), actions, s) && Idle(s)
    ensures var items, n := s.stored.items, |s.stored.items|;
            match Answered(items, n)
            case None => Asks(items, n) == 0 && Calls(items, n) == {}
            case Some(t) =>
              && Asks(items, t) == Asks(items, n) && Calls(items, t) == Calls(items, n)
              && LoadHistory(env.tools, env.base, items, t).Some?
              && LoadHistory(env.tools, env.base, items, t).value.toolCalls == map[]
  {
    hide Step, Sound, Tracks, CallsFit, Asks, Calls, LoadHistory;
    StartRecoverable(env, session);
    StartSafe(env, session);
    RunSafe(env, Start(env, session), actions, s);
    DeliveryAccounting(env, session, actions, s);
    var items, n := s.stored.items, |s.stored.items|;
    assert Calls(items, n) - s.local.toolCalls.Keys == Calls(items, n);
    if Answered(items, n).Some? {
      var t := Answered(items, n).value;
      OnlyMore(items, t, n);
      LoadedBefore(env, items, t, n);
      HistoryAccounts(env, items, t);
      var before := LoadHistory(env.tools, env.base, items, t).value;
      SubsetSizes(Calls(items, t), Calls(items, n), before.toolCalls.Keys);
    }
  }

  lemma SubsetSizes(few: set<StatusKey>, many: set<StatusKey>, open: set<StatusKey>)
    requires few <= many && open <= few
    ensures |few - open| <= |many|
    ensures |few - open| == |many| ==> few == many && open == {}
  {
    assert many == (few - open) + (many - (few - open));
    if |few - open| == |many| {
      assert |many - (few - open)| == 0;
      assert many == few - open;
    }
  }

  /** An operation is with the manager only after a recorded status carried it. */
  lemma HandedIsRecorded(env: Env, session: Session, actions: seq<Action>, t: Sys, id: string)
    requires CB.CheckpointsInRange(env.base) && Reaches(env, Start(env, session), actions, t)
    requires id in t.vol.handed
    ensures IsRecorded(t.stored.items, id)
  {
    hide Step, Sound, Replays, CallsFit;
    StartRecoverable(env, session);
    StartSafe(env, session);
    RunSafe(env, Start(env, session), actions, t);
  }

  // ------------------------------------------------------------- hard stops

  /** An accepted hard stop is never downgraded, whatever else is asked for. */
  lemma HardStopStays(env: Env, s: Sys, action: Action)
    requires CB.CheckpointsInRange(s.local.builder) && CB.CheckpointsInRange(env.base)
    requires s.vol.stop.Hard? && !action.Crash? && Step(env, s, action).Some?
    ensures Step(env, s, action).value.vol.stop.Hard?
    ensures action.Decide? ==> Step(env, s, action).value.vol.canceled
  {
    hide AddItem, Replay, Compacts, Pending, Idle, ShouldCall, WithSiblings, CB.CheckpointsInRange;
  }

  /** `t` comes after `s` without a turn, a response, a new call status or a new operation. */
  predicate OnlyWindsDown(s: Sys, t: Sys) {
    && t.vol.canceled && t.vol.stop.Hard?
    && |s.stored.items| <= |t.stored.items| && t.stored.items[..|s.stored.items|] == s.stored.items
    && (forall i :: |s.stored.items| <= i < |t.stored.items| ==> t.stored.items[i].data.InputData? || t.stored.items[i].data.StatusData?)
    && t.local.operations.Keys == s.local.operations.Keys
    && UnfinishedIDs(t.local.operations) <= UnfinishedIDs(s.local.operations)
    && t.vol.handed == s.vol.handed && t.vol.modelTurn.None?
    && (forall key :: key in t.local.toolCalls ==> key in s.local.toolCalls)
  }

  lemma HardStopStep(env: Env, s: Sys, action: Action)
    requires CB.CheckpointsInRange(env.base) && Recoverable(env, s) && Safe(s) && Fair(s, action) && !action.Crash?
    requires s.vol.canceled && Step(env, s, action).Some?
    ensures OnlyWindsDown(s, Step(env, s, action).value)
  {
    hide Replays, Sound, ResponsesNoted, LoadHistory, CB.CheckpointsInRange, Tracks, CallsFit, OnlyWindsDown,
         ReceiveInput, ReceiveUpdate, Reconcile, TakeDecision;
    match action
    case ReconcileCall(key, at) => ReconcileWindsDown(env, s, key, at);
    case TakeInput(input, at) => InputWindsDown(env, s, input, at);
    case TakeUpdate(o) => UpdateWindsDown(s, o);
    case Decide(turnID, at) => DecisionWindsDown(env, s, turnID, at);
    case GraceEnds => StandsStill(s, Step(env, s, action).value);
    case Wake => StandsStill(s, Step(env, s, action).value);
    case _ =>
  }

  /** A step that records nothing and hands nothing over. */
  lemma StandsStill(s: Sys, t: Sys)
    requires s.vol.canceled && Safe(s) && t.stored == s.stored && t.local == s.local
    requires t.vol.canceled && t.vol.stop == s.vol.stop && t.vol.modelTurn.None? && t.vol.handed == s.vol.handed
    ensures OnlyWindsDown(s, t)
  {
    assert s.stored.items[..|s.stored.items|] == s.stored.items;
  }

  lemma InputWindsDown(env: Env, s: Sys, input: Input, at: Time)
    requires CB.CheckpointsInRange(env.base) && Recoverable(env, s) && s.vol.canceled && Safe(s)
    requires ReceiveInput(env, s, input, at).Some?
    ensures OnlyWindsDown(s, ReceiveInput(env, s, input, at).value)
  {
    hide Replays, Sound, ResponsesNoted, LoadHistory, Replay, Tracks, CallsFit, CB.CheckpointsInRange, CB.ApplySettings, ValidControl, UnfinishedIDs;
    SoundFields(s.stored);
    HeadFields(s.stored, InputData(input), [], at);
  }

  lemma UpdateWindsDown(s: Sys, o: Operation)
    requires Tracks(s.stored, s.local) && s.vol.canceled && Safe(s) && Fair(s, TakeUpdate(o))
    requires ReceiveUpdate(s, o).Some?
    ensures OnlyWindsDown(s, ReceiveUpdate(s, o).value)
  {
    hide ResponsesNoted, LastSnapshot, Positions, Snapshotted;
    var t := ReceiveUpdate(s, o).value;
    assert t.stored.items == s.stored.items && s.stored.items[..|s.stored.items|] == s.stored.items;
  }

  lemma DecisionWindsDown(env: Env, s: Sys, turnID: string, at: Time)
    requires CB.CheckpointsInRange(s.local.builder) && s.vol.canceled && Safe(s) && TakeDecision(env, s, turnID, at).Some?
    ensures OnlyWindsDown(s, TakeDecision(env, s, turnID, at).value)
  {
    hide Persist, Pending, WithSiblings, ShouldCall, Compacts, OnlyWindsDown, CB.CheckpointsInRange, ResponsesNoted;
    StandsStill(s, TakeDecision(env, s, turnID, at).value);
  }

  lemma ReconcileWindsDown(env: Env, s: Sys, key: StatusKey, at: Time)
    requires CB.CheckpointsInRange(env.base) && Recoverable(env, s) && s.vol.canceled && Safe(s)
    requires Reconcile(env, s, key, at).Some?
    ensures OnlyWindsDown(s, Reconcile(env, s, key, at).value)
  {
    hide Replays, Sound, ResponsesNoted, LoadHistory, AddStatus, Tracks, CB.CheckpointsInRange, AddOperations;
    SoundFields(s.stored);
    assert CallFits(env, s, key);
    var status := s.local.toolCalls[key].status.value;
    var operations := Snapshots(status.waitingFor, s.local.operations);
    SnapshotsAreKnown(s.stored, s.local, status.waitingFor);
    AddedKnown(s.local.operations, operations, |operations|);
    HeadFields(s.stored, StatusOf(key, status), operations, at);
    StatusCalls(env.tools, s.local, ToolCallStatus(key.turnID, key.callID, status, operations));
    AddedBy(env.tools, s.local, ToolCallStatus(key.turnID, key.callID, status, operations));
  }

  lemma AddedBy(tools: Tools, l: Local, status: ToolCallStatus)
    requires AddStatus(tools, l, status).Some?
    ensures AddStatus(tools, l, status).value.operations == AddOperations(l.operations, status.operations, |status.operations|)
  {
    hide CB.AddToolResult, AddOperations, AllTerminal, Known, Snapshots;
  }

  /** `t` is reached from `s` without a crash. */
  predicate Uninterrupted(actions: seq<Action>) { forall i :: 0 <= i < |actions| ==> !actions[i].Crash? }

  /** Once a hard stop has taken hold it stays: until the run ends no turn, response, call or
      operation is recorded or handed over any more, and unfinished operations only
      become fewer. */
  lemma {:induction false} HardStopHolds(env: Env, s: Sys, actions: seq<Action>, t: Sys)
    requires CB.CheckpointsInRange(env.base) && Recoverable(env, s) && Safe(s) && s.vol.canceled
    requires CB.CheckpointsInRange(s.local.builder) && Reaches(env, s, actions, t) && Uninterrupted(actions)
    ensures OnlyWindsDown(s, t)
    decreases |actions|
  {
    hide Recoverable, Step, Fair, ResponsesNoted;
    if actions == [] {
      assert s.stored.items[..|s.stored.items|] == s.stored.items;
    } else {
      var next := Step(env, s, actions[0]).value;
      StepRecoverable(env, s, actions[0]);
      StepSafe(env, s, actions[0]);
      HardStopStep(env, s, actions[0]);
      HardStopHolds(env, next, actions[1..], t);
      WindsDownOn(s, next, t);
    }
  }

  lemma WindsDownOn(s: Sys, m: Sys, t: Sys)
    requires OnlyWindsDown(s, m) && OnlyWindsDown(m, t)
    ensures OnlyWindsDown(s, t)
  {
    hide UnfinishedIDs;
    var n := |s.stored.items|;
    assert t.stored.items[..n] == t.stored.items[..|m.stored.items|][..n];
    forall i | n <= i < |t.stored.items| ensures t.stored.items[i].data.InputData? || t.stored.items[i].data.StatusData? {
      if i < |m.stored.items| { assert t.stored.items[i] == t.stored.items[..|m.stored.items|][i]; }
    }
  }

  /** In every run, with any crashes before it: from the state where a hard stop has taken hold
      until the run ends, nothing but inputs and the results of calls is recorded, nothing is
      handed over, and unfinished operations only become fewer. */
  lemma EveryHardStopHolds(env: Env, session: Session, before: seq<Action>, s: Sys, actions: seq<Action>, t: Sys)
    requires CB.CheckpointsInRange(env.base) && Reaches(env, Start(env, session), before, s) && s.vol.canceled
    requires CB.CheckpointsInRange(s.local.builder) && Reaches(env, s, actions, t) && Uninterrupted(actions)
    ensures OnlyWindsDown(s, t)
  {
    hide Recoverable, Safe, Step, OnlyWindsDown, Uninterrupted;
    StartRecoverable(env, session);
    StartSafe(env, session);
    RunSafe(env, Start(env, session), before, s);
    HardStopHolds(env, s, actions, t);
  }
}
