/**
  The coordinator's loop as a step relation (harness/coordinator/loop.go, Run): channels,
  timers and map order choose the next action, persisting an item may fail and ends the
  run, and a crash restarts it from the log alone.

  Recovery: live state equals what a restart rebuilds, after every persisted step.
 */
module CoordinatorRuns {
  import opened Llm
  import CB = ContextBuilder
  import opened SessionState
  import opened Coordinator

  /** What a run is given: tools, the builder it starts from, the compaction prompt. */
  datatype Env = Env(tools: Tools, base: CB.State, prompt: string)

  datatype Stop = NoStop | WhenIdle | Hard

  /** Where the loop is: scheduling calls, in processEvents, or waiting in its select. */
  datatype Pc = Scheduling(starting: bool) | Events | Waiting | Finished

  /** loopState and stopState, as far as a restart forgets them. `modelTurn` is the turn of
      the model call under way; `submitted` what has been scheduled since the last
      dispatch; `handed` the operations given to the manager. */
  datatype Volatile = Volatile(
    pc: Pc, callModel: bool, needsModel: bool, scheduled: set<StatusKey>, submitted: seq<Operation>, grace: set<StatusKey>,
    completed: set<string>, stop: Stop, canceled: bool, modelTurn: Option<string>, handed: set<string>)

  datatype Sys = Sys(stored: Stored, local: Local, vol: Volatile)

  datatype Action =
    | ScheduleCall(key: StatusKey, status: CallStatus, operations: seq<Operation>, at: Time)
    | EndScheduling
    | TakeInput(input: Input, at: Time)
    | TakeUpdate(operation: Operation)
    | ReconcileCall(key: StatusKey, at: Time)
    | Decide(turnID: string, at: Time)
    | TakeResponse(response: CB.Response, at: Time)
    | GraceEnds
    | Wake
    | Crash

  const STARTED := Volatile(Scheduling(true), false, false, {}, [], {}, {}, NoStop, false, None, {})

  function Start(env: Env, session: Session): Sys { Sys(NewStored(session), NewLocal(env.base), STARTED) }

  /** addItemToLocalState, then storeItemInSessionStore. */
  function Persist(env: Env, s: Sys, data: Data, operations: seq<Operation>, at: Time): Option<Sys>
    requires CB.CheckpointsInRange(s.local.builder)
  {
    match AddItem(env.tools, s.local, WithOperations(data, operations))
    case None => None
    case Some(local) =>
      match Replay(s.stored, data, operations, at)
      case Err(_) => None
      case Ok(stored) => Some(s.(local := local, stored := stored))
  }

  /** Calls that have finished leave the grace period. */
  function Trim(s: Sys): Sys { s.(vol := s.vol.(grace := set key | key in s.vol.grace && key in s.local.toolCalls)) }

  predicate Unfinished(o: Operation) { !Terminal(o.status) }

  predicate Pending(l: Local) { exists id :: id in l.operations && Unfinished(l.operations[id]) }

  function PendingInputs(l: Local): int { l.available - l.delivered }

  predicate Idle(s: Sys) {
    s.vol.modelTurn.None? && PendingInputs(s.local) == 0 && s.local.toolCalls == map[] && !Pending(s.local)
  }

  predicate AllScheduled(l: Local) { forall key :: key in l.toolCalls ==> l.toolCalls[key].status.Some? }

  predicate Reconcilable(l: Local, key: StatusKey) {
    key in l.toolCalls && AllTerminal(l.toolCalls[key].operations, l.operations)
  }

  function StatusOf(key: StatusKey, status: CallStatus): Data { StatusData(ToolCallStatus(key.turnID, key.callID, status, [])) }

  /** scheduleToolCall: an unavailable tool gives an error status; submitted operations are
      ready. */
  predicate Translates(env: Env, name: string, status: CallStatus, operations: seq<Operation>) {
    && (forall i :: 0 <= i < |operations| ==> operations[i].status.Ready?)
    && (!env.tools.available(name) ==> status.error != "" && status.waitingFor == [] && operations == [])
  }

  function Schedule(env: Env, s: Sys, key: StatusKey, status: CallStatus, operations: seq<Operation>, at: Time): Option<Sys>
    requires CB.CheckpointsInRange(s.local.builder)
  {
    if !s.vol.pc.Scheduling? || key !in s.local.toolCalls || s.local.toolCalls[key].status.Some?
       || !Translates(env, s.local.toolCalls[key].name, status, operations) then None
    else
      match Persist(env, s, StatusOf(key, status), operations, at)
      case None => None
      case Some(t) =>
        Some(Trim(t.(vol := t.vol.(needsModel := t.vol.needsModel || status.error != "" || status.waitingFor == [],
                                   scheduled := t.vol.scheduled + {key}, submitted := t.vol.submitted + operations))))
  }

  function UnfinishedIDs(operations: map<string, Operation>): set<string> {
    set id | id in operations && Unfinished(operations[id])
  }

  function SubmittedIDs(operations: seq<Operation>): set<string> {
    set i | 0 <= i < |operations| && Unfinished(operations[i]) :: operations[i].id
  }

  /** The rest of processModelResponse, or of Run before its loop. */
  function FinishScheduling(s: Sys): Option<Sys> {
    if !s.vol.pc.Scheduling? || !AllScheduled(s.local) then None
    else
      var v := s.vol;
      Some(s.(vol := v.(
        pc := Events, callModel := v.needsModel, needsModel := false, scheduled := {}, submitted := [],
        handed := v.handed + (if v.pc.starting then UnfinishedIDs(s.local.operations) else SubmittedIDs(v.submitted)),
        grace := if !v.pc.starting && !v.needsModel then v.grace + v.scheduled else v.grace)))
  }

  predicate Listening(s: Sys) { s.vol.pc.Events? || s.vol.pc.Waiting? }

  function AcceptStop(stop: Stop, request: ControlMessage): Stop {
    if stop.Hard? then stop
    else match request case StopHard(_) => Hard case StopWhenIdle(_) => WhenIdle case _ => stop
  }

  /** handleInboxInput, once the input is recorded. */
  function NoteInput(v: Volatile, input: Input): Volatile {
    match input.kind
    case ExternalInput => v.(callModel := true, grace := {})
    case ControlInput =>
      (match input.payload
       case Control(UpdateSettings(_)) => v.(callModel := v.callModel || v.modelTurn.Some?)
       case Control(request) => v.(stop := AcceptStop(v.stop, request), grace := {})
       case _ => v)
    case _ => v.(grace := {})
  }

  function ReceiveInput(env: Env, s: Sys, input: Input, at: Time): Option<Sys>
    requires CB.CheckpointsInRange(s.local.builder)
  {
    if !Listening(s) then None
    else
      match Persist(env, s, InputData(input), [], at)
      case None => None
      case Some(t) => Some(t.(vol := NoteInput(t.vol, input).(pc := Events)))
  }

  /** handleOperationUpdate. */
  function ReceiveUpdate(s: Sys, o: Operation): Option<Sys> {
    if !Listening(s) then None
    else
      match SaveOperation(s.stored.head, o)
      case Err(_) => None
      case Ok(head) => Some(Sys(s.stored.(head := head), s.local.(operations := s.local.operations[o.id := o]), s.vol.(pc := Events)))
  }

  /** reconcileToolCalls, for one call. */
  function Reconcile(env: Env, s: Sys, key: StatusKey, at: Time): Option<Sys>
    requires CB.CheckpointsInRange(s.local.builder)
  {
    if !s.vol.pc.Events? || !Reconcilable(s.local, key) || s.local.toolCalls[key].status.None? then None
    else
      var status := s.local.toolCalls[key].status.value;
      if exists i :: 0 <= i < |status.waitingFor| && status.waitingFor[i] !in s.local.operations then None
      else
        match Persist(env, s, StatusOf(key, status), Snapshots(status.waitingFor, s.local.operations), at)
        case None => None
        case Some(t) =>
          var completed := if key in t.local.toolCalls then {} else {key.turnID};
          Some(Trim(t.(vol := t.vol.(completed := t.vol.completed + completed))))
  }

  /** The siblings of calls that completed get a grace period. */
  function WithSiblings(s: Sys): set<StatusKey> {
    s.vol.grace + set key | key in s.local.toolCalls && key.turnID in s.vol.completed
  }

  predicate ShouldCall(s: Sys) {
    s.vol.callModel || (PendingInputs(s.local) > 0 && s.vol.modelTurn.None? && WithSiblings(s) == {})
  }

  predicate Compacts(env: Env, s: Sys)
    requires CB.CheckpointsInRange(s.local.builder)
  {
    CB.NeedsCompaction(s.local.builder) && CB.BuildCompaction(s.local.builder, env.prompt).Some?
  }

  /** buildModelRequest. */
  function RequestOf(env: Env, s: Sys): CB.Request
    requires CB.CheckpointsInRange(s.local.builder)
  {
    if Compacts(env, s) then CB.BuildCompaction(s.local.builder, env.prompt).value else CB.Build(s.local.builder)
  }

  function WaitOrStop(s: Sys): Sys {
    s.(vol := s.vol.(pc := if s.vol.stop.WhenIdle? && Idle(s) then Finished else Waiting))
  }

  /** The end of processEvents and the decision that follows it. */
  function TakeDecision(env: Env, s: Sys, turnID: string, at: Time): Option<Sys>
    requires CB.CheckpointsInRange(s.local.builder)
  {
    if !s.vol.pc.Events? || exists key :: key in s.local.toolCalls && Reconcilable(s.local, key) then None
    else
      var v := s.vol.(grace := WithSiblings(s), completed := {});
      if v.stop.Hard? then
        var canceled := v.(modelTurn := if v.canceled then v.modelTurn else None, canceled := true);
        Some(s.(vol := canceled.(pc := if Pending(s.local) then Waiting else Finished)))
      else if ShouldCall(s) then
        match Persist(env, s, TurnData(Turn(turnID, s.local.currentTurnID, Compacts(env, s))), [], at)
        case None => None
        case Some(t) => Some(WaitOrStop(t.(vol := v.(modelTurn := Some(turnID), callModel := false, grace := {}))))
      else Some(WaitOrStop(s.(vol := v)))
  }

  /** A model response for the current turn; any other is dropped (`Wake`). */
  function ReceiveResponse(env: Env, s: Sys, response: CB.Response, at: Time): Option<Sys>
    requires CB.CheckpointsInRange(s.local.builder)
  {
    if !s.vol.pc.Waiting? || s.vol.modelTurn != Some(s.local.currentTurnID) then None
    else
      match Persist(env, s, ResponseData(s.local.currentTurnID, response), [], at)
      case None => None
      case Some(t) => Some(t.(vol := t.vol.(modelTurn := None, pc := Scheduling(false), needsModel := false, scheduled := {}, submitted := [])))
  }

  /** One step; None when it is not possible or ends the run with an error. */
  function Step(env: Env, s: Sys, action: Action): Option<Sys>
    requires CB.CheckpointsInRange(s.local.builder) && CB.CheckpointsInRange(env.base)
  {
    match action
    case ScheduleCall(key, status, operations, at) => Schedule(env, s, key, status, operations, at)
    case EndScheduling => FinishScheduling(s)
    case TakeInput(input, at) => ReceiveInput(env, s, input, at)
    case TakeUpdate(o) => ReceiveUpdate(s, o)
    case ReconcileCall(key, at) => Reconcile(env, s, key, at)
    case Decide(turnID, at) => TakeDecision(env, s, turnID, at)
    case TakeResponse(response, at) => ReceiveResponse(env, s, response, at)
    case GraceEnds => if s.vol.pc.Waiting? then Some(s.(vol := s.vol.(pc := Events, grace := {}))) else None
    case Wake => if s.vol.pc.Waiting? then Some(s.(vol := s.vol.(pc := Events))) else None
    case Crash => match Restore(env.tools, env.base, s.stored) case None => None case Some(local) => Some(Sys(s.stored, local, STARTED))
  }

  predicate Timed(action: Action) {
    match action
    case ScheduleCall(_, _, _, at) => at != 0
    case TakeInput(_, at) => at != 0
    case ReconcileCall(_, at) => at != 0
    case Decide(_, at) => at != 0
    case TakeResponse(_, at) => at != 0
    case _ => true
  }

  /** What clock and manager keep to: no zero time, and no update of an operation once it
      has finished. */
  predicate Fair(s: Sys, action: Action) {
    Timed(action) && (action.TakeUpdate? && action.operation.id in s.local.operations ==> Unfinished(s.local.operations[action.operation.id]))
  }
}
