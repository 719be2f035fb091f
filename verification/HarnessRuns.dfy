/**
  Coordinator and operation manager together (harness/coordinator/loop.go,
  harness/operation/local_manager.go): operations are handed over before the coordinator
  goes on, updates pass one by one from the manager's queue to the coordinator, and a crash
  takes both.

  What the coordinator's runs assume of the manager (`CoordinatorRuns.Fair`) follows: it
  never updates an operation again that the coordinator knows as finished.
 */
module HarnessRuns {
  import opened Llm
  import CB = ContextBuilder
  import opened SessionState
  import opened Coordinator
  import opened CoordinatorRuns
  import opened CoordinatorRecovery
  import S = ShellOperation
  import M = LocalManager

  datatype Pair = Pair(sys: Sys, manager: M.Manager)

  datatype Move =
    | ByCoordinator(action: Action)
    | ByManager(event: M.Incoming)
    | HandOver(request: M.Incoming)
    | PassUpdate(operation: Operation)
    | CrashBoth

  /** The manager's job and the coordinator's operation are one. */
  predicate Describes(o: Operation, job: M.Job) {
    && o.id == job.id && o.kind == job.kind && o.version == job.version && o.maxOutputLength == job.limit
    && match o.status
       case Ready => job.status == S.Ready
       case Awaiting => job.status == S.Awaiting
       case Canceling => job.status == S.Canceling
       case Completed => job.status == S.Completed
       case Failed => job.status == S.Failed
       case Canceled => job.status == S.Canceled
       case OtherStatus(_) => job.status == S.Unsupported
  }

  /** Every operation handed over has been accepted: only then the coordinator goes on. */
  predicate AllAccepted(p: Pair) { p.sys.vol.handed <= p.manager.accepted }

  /** One move of the two; None if it is not possible or ends the run. */
  ghost function MoveOn(env: Env, handlers: M.Handlers, p: Pair, move: Move): Option<Pair>
    requires CB.CheckpointsInRange(p.sys.local.builder) && CB.CheckpointsInRange(env.base)
  {
    match move
    case ByCoordinator(action) =>
      if action.TakeUpdate? || action.Crash? || !AllAccepted(p) then None
      else (match Step(env, p.sys, action) case None => None case Some(sys) => Some(p.(sys := sys)))
    case ByManager(event) =>
      if event.SendUpdate? || event.AddRequest? || !M.Possible(handlers, p.manager, event) then None
      else Some(p.(manager := M.Handle(handlers, p.manager, event)))
    case HandOver(request) =>
      if !request.AddRequest? || request.job.id !in p.sys.vol.handed || request.job.id in p.manager.accepted
         || request.job.id !in p.sys.local.operations || !Describes(p.sys.local.operations[request.job.id], request.job)
         || !M.Possible(handlers, p.manager, request) then None
      else Some(p.(manager := M.Handle(handlers, p.manager, request)))
    case PassUpdate(o) =>
      if p.manager.pendingUpdates == [] || !Describes(o, p.manager.pendingUpdates[0]) || !AllAccepted(p) then None
      else
        (match Step(env, p.sys, TakeUpdate(o))
         case None => None
         case Some(sys) => Some(Pair(sys, M.Handle(handlers, p.manager, M.SendUpdate))))
    case CrashBoth =>
      (match Step(env, p.sys, Crash) case None => None case Some(sys) => Some(Pair(sys, M.Initial(handlers))))
  }

  /** What the move is for the coordinator. */
  function ActionOf(move: Move): Option<Action> {
    match move
    case ByCoordinator(action) => Some(action)
    case PassUpdate(o) => Some(TakeUpdate(o))
    case CrashBoth => Some(Crash)
    case _ => None
  }

  predicate OnTime(move: Move) { ActionOf(move).Some? ==> Timed(ActionOf(move).value) }

  // ---------------------------------------------------------- what is kept

  /** The manager has sent the last update of this ID. */
  predicate SentLast(m: M.Manager, id: string) {
    exists i :: 0 <= i < |m.past.sent| && m.past.sent[i].id == id && M.Last(m.past.sent[i].status)
  }

  /** What is scheduled but not handed over yet is known as it was scheduled. */
  predicate SubmittedKnown(s: Sys) {
    s.vol.pc.Scheduling? ==>
      forall i :: 0 <= i < |s.vol.submitted| ==>
        s.vol.submitted[i].id in s.local.operations && s.local.operations[s.vol.submitted[i].id] == s.vol.submitted[i]
  }

  /** What was handed over is known, and unfinished until the manager has it; what has finished
      there had its last update. */
  ghost predicate HandedFit(p: Pair) {
    && p.manager.accepted <= p.sys.vol.handed
    && (forall id :: id in p.sys.vol.handed ==>
          && id in p.sys.local.operations
          && (Terminal(p.sys.local.operations[id].status) ==> id in p.manager.accepted && SentLast(p.manager, id)))
  }

  ghost predicate Joined(env: Env, p: Pair)
    requires CB.CheckpointsInRange(env.base)
  {
    Recoverable(env, p.sys) && M.Inv(p.manager) && SubmittedKnown(p.sys) && HandedFit(p)
  }

  /** The next update is of an operation that the coordinator knows as unfinished. */
  lemma NextIsUnfinished(env: Env, p: Pair, o: Operation)
    requires CB.CheckpointsInRange(env.base) && Joined(env, p) && AllAccepted(p)
    requires p.manager.pendingUpdates != [] && o.id == p.manager.pendingUpdates[0].id
    ensures o.id in p.manager.accepted && o.id in p.sys.local.operations && Unfinished(p.sys.local.operations[o.id])
  {
    hide Recoverable, M.LiveFit;
    var m := p.manager;
    var n := |m.past.sent|;
    assert m.past.queued[n] == m.pendingUpdates[0];
    assert M.Follows(m.past.queued, n, m.past.added);
    forall i | 0 <= i < n && m.past.sent[i].id == o.id ensures !M.Last(m.past.sent[i].status) {
      assert m.past.queued[i] == m.past.sent[i];
    }
  }

  // ------------------------------------------- what the coordinator does to it

  /** The coordinator knows everything it knew, as it knew it. */
  predicate KnowsStill(s: Sys, t: Sys) {
    forall id :: id in s.local.operations ==> id in t.local.operations && t.local.operations[id] == s.local.operations[id]
  }

  /** What is newly handed over is known and unfinished. */
  predicate HandsUnfinished(s: Sys, t: Sys) {
    && s.vol.handed <= t.vol.handed
    && forall id :: id in t.vol.handed && id !in s.vol.handed ==> id in t.local.operations && Unfinished(t.local.operations[id])
  }

  /** Fresh operations are added beside the known ones. */
  lemma AddedFresh(known: map<string, Operation>, operations: seq<Operation>)
    requires forall i :: 0 <= i < |operations| ==> operations[i].id !in known
    requires forall i, j :: 0 <= i < j < |operations| ==> operations[i].id != operations[j].id
    ensures var r := AddOperations(known, operations, |operations|);
            && (forall id :: id in known ==> id in r && r[id] == known[id])
            && (forall i :: 0 <= i < |operations| ==> operations[i].id in r && r[operations[i].id] == operations[i])
  {
    hide AddOperations;
    forall id | id in known ensures var r := AddOperations(known, operations, |operations|); id in r && r[id] == known[id] {
      AddedOperation(known, operations, |operations|, id);
      SnapshotAmong(operations, |operations|, id);
    }
    forall i | 0 <= i < |operations|
      ensures var r := AddOperations(known, operations, |operations|); operations[i].id in r && r[operations[i].id] == operations[i]
    {
      AddedOperation(known, operations, |operations|, operations[i].id);
      SnapshotFound(operations, |operations|, i);
      SnapshotAmong(operations, |operations|, operations[i].id);
    }
  }

  lemma ScheduleKnows(env: Env, s: Sys, key: StatusKey, status: CallStatus, operations: seq<Operation>, at: Time)
    requires CB.CheckpointsInRange(env.base) && Recoverable(env, s) && SubmittedKnown(s)
    requires Schedule(env, s, key, status, operations, at).Some?
    ensures var t := Schedule(env, s, key, status, operations, at).value;
            KnowsStill(s, t) && SubmittedKnown(t) && t.vol.handed == s.vol.handed
  {
    hide Replays, Sound, LastSnapshot, AddStatus, AddOperations, Initialize, ValidReferences, ValidOperation, CB.CheckpointsInRange;
    assert CallFits(env, s, key);
    var full := StatusData(ToolCallStatus(key.turnID, key.callID, status, operations));
    ItemOperations(env.tools, s.local, full);
    AddedFresh(s.local.operations, operations);
  }

  lemma ReconcileKnows(env: Env, s: Sys, key: StatusKey, at: Time)
    requires CB.CheckpointsInRange(env.base) && Recoverable(env, s)
    requires Reconcile(env, s, key, at).Some?
    ensures var t := Reconcile(env, s, key, at).value;
            t.local.operations == s.local.operations && t.vol.handed == s.vol.handed && !t.vol.pc.Scheduling?
  {
    hide Replays, Sound, LastSnapshot, AddStatus, AddOperations, CB.CheckpointsInRange, Replay;
    var status := s.local.toolCalls[key].status.value;
    var operations := Snapshots(status.waitingFor, s.local.operations);
    SnapshotsAreKnown(s.stored, s.local, status.waitingFor);
    AddedKnown(s.local.operations, operations, |operations|);
    ItemOperations(env.tools, s.local, StatusData(ToolCallStatus(key.turnID, key.callID, status, operations)));
  }

  lemma PersistKnows(env: Env, s: Sys, data: Data, at: Time)
    requires CB.CheckpointsInRange(s.local.builder) && Persist(env, s, data, [], at).Some? && !data.StatusData? && !data.ForkData?
    ensures Persist(env, s, data, [], at).value.local.operations == s.local.operations
    ensures Persist(env, s, data, [], at).value.vol == s.vol
  {
    hide Replay, CB.CheckpointsInRange, ValidInput, RegisterCalls, ApplyCompaction, CB.ApplySettings, CB.AddModelResponse;
  }

  /** Handing over: at the start what is unfinished, later what was just scheduled. */
  lemma HandOverKnows(s: Sys)
    requires SubmittedKnown(s) && FinishScheduling(s).Some?
    ensures var t := FinishScheduling(s).value; HandsUnfinished(s, t) && KnowsStill(s, t) && SubmittedKnown(t)
  {
    hide AllScheduled;
    var t := FinishScheduling(s).value;
    forall id | id in t.vol.handed && id !in s.vol.handed ensures id in t.local.operations && Unfinished(t.local.operations[id]) {
      if !s.vol.pc.starting {
        var i :| 0 <= i < |s.vol.submitted| && Unfinished(s.vol.submitted[i]) && s.vol.submitted[i].id == id;
      }
    }
  }

  lemma StepKnows(env: Env, s: Sys, action: Action)
    requires CB.CheckpointsInRange(env.base) && Recoverable(env, s) && CB.CheckpointsInRange(s.local.builder)
    requires SubmittedKnown(s) && !action.TakeUpdate? && !action.Crash? && Step(env, s, action).Some?
    ensures var t := Step(env, s, action).value; KnowsStill(s, t) && SubmittedKnown(t) && HandsUnfinished(s, t)
  {
    hide Recoverable, Persist, Schedule, Reconcile, FinishScheduling, ShouldCall, Compacts, Pending, Idle, WithSiblings, CB.CheckpointsInRange, AllTerminal;
    match action
    case ScheduleCall(key, status, operations, at) => ScheduleKnows(env, s, key, status, operations, at);
    case EndScheduling => HandOverKnows(s);
    case TakeInput(input, at) => PersistKnows(env, s, InputData(input), at);
    case ReconcileCall(key, at) => ReconcileKnows(env, s, key, at);
    case Decide(turnID, at) =>
      if !s.vol.stop.Hard? && ShouldCall(s) { PersistKnows(env, s, TurnData(Turn(turnID, s.local.currentTurnID, Compacts(env, s))), at); }
    case TakeResponse(response, at) => PersistKnows(env, s, ResponseData(s.local.currentTurnID, response), at);
    case _ =>
  }

  // ---------------------------------------------------------- every move keeps it

  /** What the coordinator does is fair. */
  lemma MoveIsFair(env: Env, handlers: M.Handlers, p: Pair, move: Move)
    requires CB.CheckpointsInRange(env.base) && Joined(env, p) && CB.CheckpointsInRange(p.sys.local.builder) && OnTime(move)
    requires MoveOn(env, handlers, p, move).Some? && ActionOf(move).Some?
    ensures Fair(p.sys, ActionOf(move).value)
    ensures Step(env, p.sys, ActionOf(move).value) == Some(MoveOn(env, handlers, p, move).value.sys)
  {
    hide Joined, Step, M.Handle, M.Possible, CB.CheckpointsInRange;
    if move.PassUpdate? { NextIsUnfinished(env, p, move.operation); }
  }

  lemma CoordinatorKeeps(p: Pair, t: Sys)
    requires HandedFit(p) && KnowsStill(p.sys, t) && HandsUnfinished(p.sys, t)
    ensures HandedFit(p.(sys := t))
  {
    forall id | id in t.vol.handed
      ensures id in t.local.operations && (Terminal(t.local.operations[id].status) ==> id in p.manager.accepted && SentLast(p.manager, id))
    {
      if id in p.sys.vol.handed { assert t.local.operations[id] == p.sys.local.operations[id]; }
    }
  }

  /** The manager takes over what is unfinished, or goes on with what it has. */
  lemma ManagerKeeps(p: Pair, m: M.Manager)
    requires HandedFit(p) && m.past.sent == p.manager.past.sent && p.manager.accepted <= m.accepted <= p.sys.vol.handed
    ensures HandedFit(p.(manager := m))
  {
    forall id | id in p.sys.vol.handed && SentLast(p.manager, id) ensures SentLast(m, id) {}
  }

  lemma UpdateKeeps(p: Pair, o: Operation, sys: Sys, m: M.Manager)
    requires HandedFit(p) && AllAccepted(p) && p.manager.pendingUpdates != [] && Describes(o, p.manager.pendingUpdates[0])
    requires m.past.sent == p.manager.past.sent + [p.manager.pendingUpdates[0]] && m.accepted == p.manager.accepted
    requires sys.vol.handed == p.sys.vol.handed && sys.local.operations == p.sys.local.operations[o.id := o]
    ensures HandedFit(Pair(sys, m))
  {
    var n := |p.manager.past.sent|;
    assert m.past.sent[n] == p.manager.pendingUpdates[0];
    forall id | id in sys.vol.handed
      ensures id in sys.local.operations && (Terminal(sys.local.operations[id].status) ==> id in m.accepted && SentLast(m, id))
    {
      if id != o.id && Terminal(sys.local.operations[id].status) {
        var i :| 0 <= i < n && p.manager.past.sent[i].id == id && M.Last(p.manager.past.sent[i].status);
        assert m.past.sent[i] == p.manager.past.sent[i];
      }
    }
  }

  lemma MoveKeeps(env: Env, handlers: M.Handlers, p: Pair, move: Move)
    requires CB.CheckpointsInRange(env.base) && Joined(env, p) && CB.CheckpointsInRange(p.sys.local.builder) && OnTime(move)
    requires MoveOn(env, handlers, p, move).Some?
    ensures Joined(env, MoveOn(env, handlers, p, move).value)
  {
    hide Recoverable, Step, M.Handle, M.Possible, M.Inv, HandedFit, CB.CheckpointsInRange, Fair, Describes, SubmittedKnown;
    if ActionOf(move).Some? {
      MoveIsFair(env, handlers, p, move);
      StepRecoverable(env, p.sys, ActionOf(move).value);
    }
    var next := MoveOn(env, handlers, p, move).value;
    match move
    case ByCoordinator(action) =>
      StepKnows(env, p.sys, action);
      CoordinatorKeeps(p, next.sys);
    case ByManager(event) =>
      M.RoundKeeps(handlers, p.manager, event);
      FitAccepted(p);
      ManagerKeeps(p, next.manager);
    case HandOver(request) =>
      M.RoundKeeps(handlers, p.manager, request);
      FitAccepted(p);
      ManagerKeeps(p, next.manager);
    case PassUpdate(o) =>
      SendPossible(handlers, p.manager);
      M.RoundKeeps(handlers, p.manager, M.SendUpdate);
      UpdateEffect(env, p.sys, o);
      UpdateKeeps(p, o, next.sys, next.manager);
    case CrashBoth =>
      M.InitialFits(handlers);
      RestartFits(p.sys, handlers);
  }

  lemma SendPossible(handlers: M.Handlers, m: M.Manager)
    ensures M.Possible(handlers, m, M.SendUpdate) <==> m.pendingUpdates != []
  {
  }

  lemma FitAccepted(p: Pair)
    requires HandedFit(p)
    ensures p.manager.accepted <= p.sys.vol.handed
  {
  }

  lemma UpdateEffect(env: Env, s: Sys, o: Operation)
    requires CB.CheckpointsInRange(s.local.builder) && CB.CheckpointsInRange(env.base) && Step(env, s, TakeUpdate(o)).Some?
    ensures var t := Step(env, s, TakeUpdate(o)).value;
            t.vol.handed == s.vol.handed && t.local.operations == s.local.operations[o.id := o] && SubmittedKnown(t)
  {
  }

  lemma RestartFits(s: Sys, handlers: M.Handlers)
    ensures var p := Pair(Sys(s.stored, s.local, STARTED), M.Initial(handlers)); HandedFit(p) && SubmittedKnown(p.sys)
  {
  }

  /** `t` is reached from `p` by moves of the two. */
  ghost predicate Moves(env: Env, handlers: M.Handlers, p: Pair, moves: seq<Move>, t: Pair)
    requires CB.CheckpointsInRange(p.sys.local.builder) && CB.CheckpointsInRange(env.base)
    decreases |moves|
  {
    if moves == [] then t == p
    else
      && OnTime(moves[0]) && MoveOn(env, handlers, p, moves[0]).Some?
      && CB.CheckpointsInRange(MoveOn(env, handlers, p, moves[0]).value.sys.local.builder)
      && Moves(env, handlers, MoveOn(env, handlers, p, moves[0]).value, moves[1..], t)
  }

  /** What the coordinator does in these moves. */
  function ActionsOf(moves: seq<Move>): seq<Action> {
    if moves == [] then []
    else (if ActionOf(moves[0]).Some? then [ActionOf(moves[0]).value] else []) + ActionsOf(moves[1..])
  }

  lemma {:induction false} MovesAreFair(env: Env, handlers: M.Handlers, p: Pair, moves: seq<Move>, t: Pair)
    requires CB.CheckpointsInRange(env.base) && Joined(env, p) && CB.CheckpointsInRange(p.sys.local.builder) && Moves(env, handlers, p, moves, t)
    ensures Joined(env, t) && Reaches(env, p.sys, ActionsOf(moves), t.sys)
    decreases |moves|
  {
    hide Joined, Step, MoveOn, CB.CheckpointsInRange, Fair, OnTime;
    if moves != [] {
      var next := MoveOn(env, handlers, p, moves[0]).value;
      MoveKeeps(env, handlers, p, moves[0]);
      MovesAreFair(env, handlers, next, moves[1..], t);
      var rest := ActionsOf(moves[1..]);
      if ActionOf(moves[0]).Some? {
        MoveIsFair(env, handlers, p, moves[0]);
        assert ([ActionOf(moves[0]).value] + rest)[1..] == rest;
      } else {
        SilentMove(env, handlers, p, moves[0]);
        assert [] + rest == rest;
      }
    }
  }

  lemma SilentMove(env: Env, handlers: M.Handlers, p: Pair, move: Move)
    requires CB.CheckpointsInRange(p.sys.local.builder) && CB.CheckpointsInRange(env.base)
    requires MoveOn(env, handlers, p, move).Some? && ActionOf(move).None?
    ensures MoveOn(env, handlers, p, move).value.sys == p.sys
  {
    hide Step, M.Handle, M.Possible, CB.CheckpointsInRange;
  }

  function StartBoth(env: Env, session: Session, handlers: M.Handlers): Pair { Pair(Start(env, session), M.Initial(handlers)) }

  /** In every run of the two together, with any crashes, what the coordinator does is a run it
      is proved for: no finished operation is ever updated again. So a restart gives back the
      live state, and knows every stored operation as it was stored last. */
  lemma TogetherNothingIsForgotten(env: Env, session: Session, handlers: M.Handlers, moves: seq<Move>, t: Pair)
    requires CB.CheckpointsInRange(env.base) && Moves(env, handlers, StartBoth(env, session, handlers), moves, t)
    ensures Reaches(env, Start(env, session), ActionsOf(moves), t.sys)
    ensures Restore(env.tools, env.base, t.sys.stored) == Some(t.sys.local)
    ensures Positions(t.sys.stored.head)
    ensures forall id :: id in t.sys.stored.head.operationPositions ==>
              id in t.sys.local.operations && t.sys.local.operations[id] == StoredOperation(t.sys.stored.head, id)
  {
    hide Moves, Step, Sound, Replays, CallsFit, LastSnapshot, M.Inv, HandedFit;
    StartRecoverable(env, session);
    M.InitialFits(handlers);
    RestartFits(Start(env, session), handlers);
    MovesAreFair(env, handlers, StartBoth(env, session, handlers), moves, t);
    CrashChangesNothing(env, session, ActionsOf(moves), t.sys);
  }
}
