/**
  What every run of a shell operation keeps (harness/operation/shell.go), whatever events
  arrive and however often it crashes and is resumed from a checkpoint it wrote.
 */
module ShellRuns {
  import opened Llm
  import opened Utf8
  import opened BoundedOutput
  import opened ShellOperation

  // ------------------------------------------------------------------- runs

  /** A run: the machine, every checkpoint written so far, and the processes started. */
  datatype Run = Run(shell: Shell, written: seq<Operation>, starts: nat)

  /** A primitive event arrives, or a crash: a new Shell continues from a checkpoint. */
  datatype Move = Deliver(event: Event) | CrashAndResume(from: nat)

  function Record(r: Run, h: Handled): Option<Run> {
    match h
    case Error => None
    case Handled(shell, step) =>
      Some(Run(shell, r.written + (if step.checkpoint.Some? then [step.checkpoint.value] else []),
               r.starts + (if step.dispatch.Some? && step.dispatch.value.StartProcess? then 1 else 0)))
  }

  /** None ends the run: an event that cannot be handled, or nothing to resume. */
  function MoveOn(r: Run, move: Move): Option<Run>
    requires LimitInRange(r.shell.op.limit)
  {
    match move
    case Deliver(event) => Record(r, Handle(r.shell, Some(event)))
    case CrashAndResume(from) =>
      if from >= |r.written| then None
      else match NewShell(r.written[from]) case None => None case Some(shell) => Record(r, Handle(shell, None))
  }

  // ------------------------------------------------- never started twice

  /** A process may have been started. */
  predicate Past(o: Operation) {
    !o.status.Ready? && !o.state.phase.CreateDirectory? && !o.state.phase.CreateOut? && !o.state.phase.CreateErr?
  }

  /** A handled step past the start, starting nothing. */
  predicate PastStep(h: Handled, limit: int) {
    h.Handled? ==>
      && Past(h.shell.op) && h.shell.op.limit == limit
      && (h.step.checkpoint.Some? ==> Past(h.step.checkpoint.value) && h.step.checkpoint.value.limit == limit)
      && (h.step.dispatch.Some? ==> !h.step.dispatch.value.StartProcess?)
  }

  lemma PastFail(s: Shell, reason: Reason)
    ensures PastStep(Fail(s, reason), s.op.limit) && PastStep(Cancel(s), s.op.limit)
  {
  }

  lemma PastDispatch(s: Shell)
    requires LimitInRange(s.op.limit)
    requires var phase := s.op.state.phase;
             !phase.CreateDirectory? && !phase.CreateOut? && !phase.CreateErr? && !phase.Process?
    ensures PastStep(DispatchPhase(s), s.op.limit)
  {
    hide ReadLimit, TailReadLimit;
  }

  lemma PastComplete(s: Shell, data: Bytes, size: int)
    requires LimitInRange(s.op.limit) && Reading(s.op.state.phase)
    ensures PastStep(Complete(s, data, size), s.op.limit)
  {
    hide Finish, DispatchPhase, PastStep, OutPathOf, ErrPathOf;
    var state := s.op.state;
    var needsTail := size > ReadLimit(s.op.limit);
    var headSize := ReadLimit(s.op.limit) - TailReadLimit(s.op.limit);
    var kept := if needsTail && !ReadsTail(state.phase) && |data| > headSize then data[..headSize] else data;
    match state.phase
    case ReadOut =>
      PastDispatch(WithState(s, state.(inlineOut := kept, outSize := size, inlineOutTail := [], phase := if needsTail then ReadOutTail else ReadErr)));
    case ReadOutTail => PastDispatch(WithState(s, state.(inlineOutTail := data, phase := ReadErr)));
    case ReadErr =>
      var next := WithState(s, state.(inlineErr := kept, errSize := size, inlineErrTail := []));
      if needsTail { PastDispatch(WithState(next, next.op.state.(phase := ReadErrTail))); } else { PastFinish(next); }
    case ReadErrTail => PastFinish(WithState(s, state.(inlineErrTail := data)));
    case _ =>
  }

  lemma PastFinish(s: Shell)
    requires LimitInRange(s.op.limit)
    ensures PastStep(Finish(s), s.op.limit)
  {
    hide BoundOutput;
  }

  lemma PastProcess(s: Shell, what: Happening)
    requires LimitInRange(s.op.limit) && Past(s.op) && s.op.state.phase.Process?
    ensures PastStep(AfterProcess(s, what), s.op.limit)
  {
    hide DispatchPhase;
    PastFail(s, Unexpected);
    match what
    case ProcessExited(Some(exit)) =>
      PastDispatch(WithState(s, s.op.state.(group := 0, pendingExit := Some(ExitStatus(exit)), phase := ReadOut)));
    case _ =>
  }

  lemma PastRead(s: Shell, what: Happening)
    requires LimitInRange(s.op.limit) && Past(s.op) && Reading(s.op.state.phase)
    ensures PastStep(AfterRead(s, what), s.op.limit)
  {
    hide Complete, Concat, Fail;
    PastFail(s, Unexpected);
    match what
    case ReadCompleted(Some(size)) => PastComplete(s.(chunks := [], readSize := 0), Concat(s.chunks), size);
    case _ =>
  }

  lemma PastHandle(s: Shell, e: Option<Event>)
    requires LimitInRange(s.op.limit) && Past(s.op)
    ensures PastStep(Handle(s, e), s.op.limit)
  {
    hide AfterProcess, AfterRead, DispatchPhase, Fail, Cancel, PastStep;
    forall reason ensures PastStep(Fail(s, reason), s.op.limit) && PastStep(Cancel(s), s.op.limit) { PastFail(s, reason); }
    PastStepError(s.op.limit);
    PastFail(s, Stopped);
    var phase := s.op.state.phase;
    if e.None? {
      if !phase.Process? { PastDispatch(s.(chunks := [], readSize := 0)); }
    } else if phase.Process? {
      PastProcess(s, e.value.what);
    } else if Reading(phase) {
      PastRead(s, e.value.what);
    }
  }

  lemma PastStepError(limit: int)
    ensures PastStep(Error, limit)
  {
  }

  /** `t` is reached from `r` by some moves. */
  predicate Reaches(r: Run, moves: seq<Move>, t: Run)
    requires LimitInRange(r.shell.op.limit)
    decreases |moves|
  {
    if moves == [] then t == r
    else
      && MoveOn(r, moves[0]).Some? && LimitInRange(MoveOn(r, moves[0]).value.shell.op.limit)
      && Reaches(MoveOn(r, moves[0]).value, moves[1..], t)
  }

  /** Each crash of these moves is followed by a resume from a checkpoint past the start. */
  predicate ResumesPast(r: Run, moves: seq<Move>)
    requires LimitInRange(r.shell.op.limit)
    decreases |moves|
  {
    moves != [] ==>
      && (moves[0].CrashAndResume? && moves[0].from < |r.written| ==> Past(r.written[moves[0].from]))
      && (MoveOn(r, moves[0]).Some? && LimitInRange(MoveOn(r, moves[0]).value.shell.op.limit) ==>
            ResumesPast(MoveOn(r, moves[0]).value, moves[1..]))
  }

  /** Once the process phase or a later one is reached, nothing starts a process again: no
      event, and no number of crashes and resumes from such checkpoints, whatever was
      written before. */
  lemma {:induction false} NeverStartsAgain(r: Run, moves: seq<Move>, t: Run)
    requires LimitInRange(r.shell.op.limit) && Past(r.shell.op)
    requires Reaches(r, moves, t) && ResumesPast(r, moves)
    ensures t.starts == r.starts && Past(t.shell.op)
    decreases |moves|
  {
    hide Handle, Past;
    if moves != [] {
      match moves[0] {
        case Deliver(event) => PastHandle(r.shell, Some(event));
        case CrashAndResume(from) => PastHandle(NewShell(r.written[from]).value, None);
      }
      NeverStartsAgain(MoveOn(r, moves[0]).value, moves[1..], t);
    }
  }

  /** Each crash of these moves is followed by a resume from the latest checkpoint. */
  predicate ResumesLatest(r: Run, moves: seq<Move>)
    requires LimitInRange(r.shell.op.limit)
    decreases |moves|
  {
    moves != [] ==>
      && (moves[0].CrashAndResume? ==> moves[0].from == |r.written| - 1)
      && (MoveOn(r, moves[0]).Some? && LimitInRange(MoveOn(r, moves[0]).value.shell.op.limit) ==>
            ResumesLatest(MoveOn(r, moves[0]).value, moves[1..]))
  }

  /** A handled step: its checkpoint is the operation, without one nothing changes, and what
      starts a process is past the start. */
  predicate StepTells(s: Shell, h: Handled) {
    h.Handled? ==>
      && (h.step.checkpoint.Some? ==> h.step.checkpoint.value == h.shell.op)
      && (h.step.checkpoint.None? ==> h.shell.op == s.op && h.step.dispatch.None?)
      && (h.step.dispatch.Some? && h.step.dispatch.value.StartProcess? ==> Past(h.shell.op))
  }

  lemma DispatchTells(s: Shell)
    requires LimitInRange(s.op.limit)
    ensures forall t: Shell :: StepTells(t, DispatchPhase(s)) && StepTells(t, Finish(s))
  {
    hide BoundOutput, ReadLimit, TailReadLimit;
  }

  lemma HandleTells(s: Shell, e: Option<Event>)
    requires LimitInRange(s.op.limit)
    ensures StepTells(s, Handle(s, e))
  {
    hide BoundOutput, Concat, DispatchPhase, Finish, RequestOf, Past;
    forall t: Shell | LimitInRange(t.op.limit) ensures StepTells(s, DispatchPhase(t)) && StepTells(s, Finish(t)) { DispatchTells(t); }
  }

  predicate Creating(phase: Phase) { phase.CreateDirectory? || phase.CreateOut? || phase.CreateErr? }

  /** From this checkpoint a process may be started: the operation is new, or still creates
      its files. */
  predicate MayStart(o: Operation) {
    && PathComponent(o.id)
    && (|| (o.status.Ready? && o.state.phase.NoPhase? && o.state.result.None? && o.state.failure.None?)
        || (o.status.Awaiting? && Creating(o.state.phase)))
  }

  function Chance(o: Operation): nat { if MayStart(o) then 1 else 0 }

  function Starting(h: Handled): nat {
    if h.Handled? && h.step.dispatch.Some? && h.step.dispatch.value.StartProcess? then 1 else 0
  }

  /** Creating the next file, or starting the process once all are there. */
  lemma DispatchChance(s: Shell)
    requires LimitInRange(s.op.limit) && (Creating(s.op.state.phase) || s.op.state.phase.Process?)
    ensures var h := DispatchPhase(s); h.Handled? && Starting(h) + Chance(h.shell.op) <= 1 && h.step.checkpoint == Some(h.shell.op)
  {
    hide PathComponent;
  }

  /** An operation that has ended or goes on past the start. */
  lemma NoChance(h: Handled, limit: int)
    requires PastStep(h, limit)
    ensures h.Handled? ==> Starting(h) == 0 && Chance(h.shell.op) == 0
  {
  }

  lemma EarlyChance(s: Shell, e: Option<Event>)
    requires LimitInRange(s.op.limit) && !Past(s.op)
    ensures var h := Handle(s, e); h.Handled? ==> Starting(h) + Chance(h.shell.op) <= Chance(s.op)
  {
    hide DispatchPhase, AfterProcess, AfterRead, PathComponent;
    forall t: Shell | LimitInRange(t.op.limit) && (Creating(t.op.state.phase) || t.op.state.phase.Process?)
      ensures var h := DispatchPhase(t); h.Handled? && Starting(h) + Chance(h.shell.op) <= 1 { DispatchChance(t); }
  }

  /** Starting the process takes the chance to do so. */
  lemma OneChance(s: Shell, e: Option<Event>)
    requires LimitInRange(s.op.limit)
    ensures var h := Handle(s, e); h.Handled? ==> Starting(h) + Chance(h.shell.op) <= Chance(s.op)
  {
    hide Handle, MayStart, PastStep, Past;
    if Past(s.op) {
      PastHandle(s, e);
      NoChance(Handle(s, e), s.op.limit);
    } else {
      EarlyChance(s, e);
    }
  }

  lemma DispatchWrites(s: Shell)
    requires LimitInRange(s.op.limit)
    ensures var h := DispatchPhase(s); h.Handled? && h.step.checkpoint == Some(h.shell.op)
  {
    hide RequestOf;
  }

  /** Starting or resuming always writes a checkpoint. */
  lemma ResumeWrites(s: Shell)
    requires LimitInRange(s.op.limit)
    ensures var h := Handle(s, None); h.Handled? ==> h.step.checkpoint == Some(h.shell.op)
  {
    hide DispatchPhase, PathComponent;
    forall t: Shell | LimitInRange(t.op.limit)
      ensures var h := DispatchPhase(t); h.Handled? && h.step.checkpoint == Some(h.shell.op) { DispatchWrites(t); }
  }

  /** What a run may still start, if each resume is from the latest checkpoint. */
  function Bound(r: Run): nat
    requires r.written != []
  {
    r.starts + if MayStart(r.shell.op) || MayStart(r.written[|r.written| - 1]) then 1 else 0
  }

  lemma MoveWithin(r: Run, move: Move)
    requires LimitInRange(r.shell.op.limit) && r.written != [] && MoveOn(r, move).Some?
    requires move.CrashAndResume? ==> move.from == |r.written| - 1
    ensures MoveOn(r, move).value.written != [] && Bound(MoveOn(r, move).value) <= Bound(r)
  {
    hide Handle, MayStart;
    var shell := match move case Deliver(_) => r.shell case CrashAndResume(from) => NewShell(r.written[from]).value;
    var event := match move case Deliver(event) => Some(event) case CrashAndResume(_) => None;
    HandleTells(shell, event);
    OneChance(shell, event);
  }

  lemma {:induction false} RunWithin(r: Run, moves: seq<Move>, t: Run)
    requires LimitInRange(r.shell.op.limit) && r.written != [] && Reaches(r, moves, t) && ResumesLatest(r, moves)
    ensures t.starts <= Bound(r)
    decreases |moves|
  {
    hide MoveOn, MayStart;
    if moves != [] {
      MoveWithin(r, moves[0]);
      RunWithin(MoveOn(r, moves[0]).value, moves[1..], t);
    }
  }

  /** A new operation starts its process at most once, however often it crashes, if each
      resume is from the latest checkpoint. */
  lemma StartsAtMostOnce(o: Operation, moves: seq<Move>, t: Run)
    requires LimitInRange(o.limit) && o.status.Ready?
    requires var r := Run(Shell(o, [], 0), [o], 0); Reaches(r, moves, t) && ResumesLatest(r, moves)
    ensures t.starts <= 1
  {
    hide Reaches, ResumesLatest;
    RunWithin(Run(Shell(o, [], 0), [o], 0), moves, t);
  }

  /** `moves` resume from checkpoint `i`, and later only from the latest. */
  predicate ResumesFrom(r: Run, i: nat, moves: seq<Move>)
    requires LimitInRange(r.shell.op.limit)
  {
    && moves != [] && moves[0] == CrashAndResume(i)
    && (MoveOn(r, moves[0]).Some? && LimitInRange(MoveOn(r, moves[0]).value.shell.op.limit) ==>
          ResumesLatest(MoveOn(r, moves[0]).value, moves[1..]))
  }

  /** Once its files are being created, the operation can go on to start its process. */
  lemma {:induction false} CreatingStarts(r: Run) returns (moves: seq<Move>, t: Run)
    requires LimitInRange(r.shell.op.limit) && r.shell.op.status.Awaiting? && Creating(r.shell.op.state.phase) && PathComponent(r.shell.op.id)
    ensures Reaches(r, moves, t) && ResumesLatest(r, moves) && t.starts == r.starts + 1
    ensures r.written <= t.written && LimitInRange(t.shell.op.limit)
    decreases Rank(r.shell.op.state.phase)
  {
    hide PathComponent;
    var phase := r.shell.op.state.phase;
    var move := Deliver(Event(r.shell.op.id, phase, Created(Some(if phase.CreateDirectory? then Directory else RegularFile))));
    var next := MoveOn(r, move).value;
    var rest: seq<Move> := [];
    t := next;
    if !phase.CreateErr? { rest, t := CreatingStarts(next); }
    moves := [move] + rest;
    assert moves[1..] == rest;
  }

  /** Resuming from such a checkpoint, whatever came after it, can start the process. */
  lemma ResumeStarts(r: Run, i: nat) returns (moves: seq<Move>, t: Run)
    requires LimitInRange(r.shell.op.limit) && i < |r.written| && Acceptable(r.written[i]) && MayStart(r.written[i])
    ensures ResumesFrom(r, i, moves) && Reaches(r, moves, t) && t.starts == r.starts + 1
    ensures r.written <= t.written && LimitInRange(t.shell.op.limit)
  {
    hide PathComponent, ReadLimit, ResumesLatest;
    var next := MoveOn(r, CrashAndResume(i)).value;
    var rest;
    rest, t := CreatingStarts(next);
    moves := [CrashAndResume(i)] + rest;
    assert moves[1..] == rest;
  }

  /** The exact condition: after a crash, resuming from a checkpoint can start a process (again)
      if and only if the checkpoint is of a new operation or of one that creates its files,
      with an ID that can be a file name; and it never starts more than one. */
  lemma StartsExactly(r: Run, i: nat)
    requires LimitInRange(r.shell.op.limit) && i < |r.written| && Acceptable(r.written[i])
    ensures (exists moves, t :: ResumesFrom(r, i, moves) && Reaches(r, moves, t) && t.starts > r.starts) <==> MayStart(r.written[i])
    ensures forall moves, t :: ResumesFrom(r, i, moves) && Reaches(r, moves, t) ==> t.starts <= r.starts + 1
  {
    hide MayStart, Acceptable;
    if MayStart(r.written[i]) {
      var moves, t := ResumeStarts(r, i);
    }
    forall moves, t | ResumesFrom(r, i, moves) && Reaches(r, moves, t) ensures t.starts <= r.starts + Chance(r.written[i]) {
      ResumedWithin(r, i, moves, t);
    }
  }

  lemma ResumedWithin(r: Run, i: nat, moves: seq<Move>, t: Run)
    requires LimitInRange(r.shell.op.limit) && ResumesFrom(r, i, moves) && Reaches(r, moves, t)
    ensures i < |r.written| && t.starts <= r.starts + Chance(r.written[i])
  {
    hide Handle, MayStart, ResumesLatest;
    OneChance(NewShell(r.written[i]).value, None);
    ResumeWrites(NewShell(r.written[i]).value);
    RunWithin(MoveOn(r, moves[0]).value, moves[1..], t);
  }

  lemma {:induction false} ReachesOn(r: Run, first: seq<Move>, m: Run, second: seq<Move>, t: Run)
    requires LimitInRange(r.shell.op.limit) && LimitInRange(m.shell.op.limit) && Reaches(r, first, m) && Reaches(m, second, t)
    ensures Reaches(r, first + second, t)
    decreases |first|
  {
    hide MoveOn;
    if first == [] {
      assert first + second == second;
    } else {
      ReachesOn(MoveOn(r, first[0]).value, first[1..], m, second, t);
      assert (first + second)[1..] == first[1..] + second;
    }
  }

  /** Without that nothing bounds it: if later checkpoints are lost, a new operation starts its
      process as often as it is resumed. */
  lemma {:induction false} AnyNumberOfStarts(o: Operation, n: nat) returns (moves: seq<Move>, t: Run)
    requires IsNew(o) && PathComponent(o.id)
    ensures Reaches(Run(Shell(o, [], 0), [o], 0), moves, t) && t.starts == n
    ensures [o] <= t.written && LimitInRange(t.shell.op.limit)
  {
    hide PathComponent;
    var r := Run(Shell(o, [], 0), [o], 0);
    if n == 0 { return [], r; }
    var before, m := AnyNumberOfStarts(o, n - 1);
    assert m.written[0] == o;
    var more;
    more, t := ResumeStarts(m, 0);
    ReachesOn(r, before, m, more, t);
    moves := before + more;
  }

  // ----------------------------------------------------- which exit is shown

  function ExitOf(e: Event): set<int> {
    if e.what.ProcessExited? && e.what.exit.Some? then {ExitStatus(e.what.exit.value)} else {}
  }

  /** The statuses of the process exits delivered. */
  function Exits(moves: seq<Move>): set<int> {
    if moves == [] then {} else (if moves[0].Deliver? then ExitOf(moves[0].event) else {}) + Exits(moves[1..])
  }

  /** The exit code of an operation is among these. */
  predicate ExitFrom(o: Operation, codes: set<int>) {
    && (o.state.pendingExit.Some? ==> o.state.pendingExit.value in codes)
    && (o.state.result.Some? ==> o.state.result.value.exitCode in codes)
  }

  /** Neither exit nor result changes. */
  predicate SameExit(h: Handled, o: Operation) {
    h.Handled? ==> h.shell.op.state.pendingExit == o.state.pendingExit && h.shell.op.state.result == o.state.result
  }

  lemma DispatchExit(s: Shell)
    requires LimitInRange(s.op.limit)
    ensures SameExit(DispatchPhase(s), s.op)
  {
    hide RequestOf;
  }

  lemma FinishExit(s: Shell, codes: set<int>)
    requires LimitInRange(s.op.limit) && ExitFrom(s.op, codes)
    ensures Finish(s).Handled? && ExitFrom(Finish(s).shell.op, codes)
  {
    hide BoundOutput, OutPathOf, ErrPathOf;
  }

  lemma CompleteExits(s: Shell, data: Bytes, size: int, codes: set<int>)
    requires LimitInRange(s.op.limit) && ExitFrom(s.op, codes)
    ensures Complete(s, data, size).Handled? ==> ExitFrom(Complete(s, data, size).shell.op, codes)
  {
    hide Finish, DispatchPhase;
    var state := s.op.state;
    var needsTail := size > ReadLimit(s.op.limit);
    var headSize := ReadLimit(s.op.limit) - TailReadLimit(s.op.limit);
    var kept := if needsTail && !ReadsTail(state.phase) && |data| > headSize then data[..headSize] else data;
    match state.phase
    case ReadOut =>
      DispatchExit(WithState(s, state.(inlineOut := kept, outSize := size, inlineOutTail := [], phase := if needsTail then ReadOutTail else ReadErr)));
    case ReadOutTail => DispatchExit(WithState(s, state.(inlineOutTail := data, phase := ReadErr)));
    case ReadErr =>
      var next := WithState(s, state.(inlineErr := kept, errSize := size, inlineErrTail := []));
      if needsTail { DispatchExit(WithState(next, next.op.state.(phase := ReadErrTail))); } else { FinishExit(next, codes); }
    case ReadErrTail => FinishExit(WithState(s, state.(inlineErrTail := data)), codes);
    case _ =>
  }

  lemma NextExit(s: Shell, t: Shell)
    requires LimitInRange(t.op.limit) && t.op.state.pendingExit == s.op.state.pendingExit && t.op.state.result == s.op.state.result
    ensures SameExit(DispatchPhase(t), s.op)
  {
    hide DispatchPhase;
    DispatchExit(t);
  }

  lemma CreateExit(s: Shell, what: Happening)
    requires LimitInRange(s.op.limit)
    ensures SameExit(AfterCreate(s, what), s.op)
  {
    hide DispatchPhase, OutPathOf, ErrPathOf, SameExit, Fail;
    FailExit(s, Unexpected);
    var state := s.op.state;
    match state.phase
    case CreateDirectory => NextExit(s, WithState(s, state.(phase := CreateOut)));
    case CreateOut => NextExit(s, WithState(s, state.(outPath := OutPathOf(s.op), phase := CreateErr)));
    case _ => NextExit(s, WithState(s, state.(errPath := ErrPathOf(s.op), phase := Process)));
  }

  lemma ProcessExit(s: Shell, what: Happening, codes: set<int>)
    requires LimitInRange(s.op.limit) && ExitFrom(s.op, codes)
    ensures var h := AfterProcess(s, what);
            h.Handled? ==> ExitFrom(h.shell.op, codes + ExitOf(Event(s.op.id, s.op.state.phase, what)))
  {
    hide DispatchPhase;
    match what
    case ProcessExited(Some(exit)) =>
      DispatchExit(WithState(s, s.op.state.(group := 0, pendingExit := Some(ExitStatus(exit)), phase := ReadOut)));
    case _ =>
  }

  lemma ReadExits(s: Shell, what: Happening, codes: set<int>)
    requires LimitInRange(s.op.limit) && ExitFrom(s.op, codes)
    ensures AfterRead(s, what).Handled? ==> ExitFrom(AfterRead(s, what).shell.op, codes)
  {
    hide Complete, Concat, RequestOf;
    if what.ReadCompleted? && what.size.Some? { CompleteExits(s.(chunks := [], readSize := 0), Concat(s.chunks), what.size.value, codes); }
  }

  lemma FailExit(s: Shell, reason: Reason)
    ensures SameExit(Fail(s, reason), s.op) && SameExit(Cancel(s), s.op)
  {
  }

  lemma SameExitFrom(h: Handled, o: Operation, codes: set<int>, more: set<int>)
    requires ExitFrom(o, codes) && SameExit(h, o)
    ensures h.Handled? ==> ExitFrom(h.shell.op, codes + more)
  {
  }

  lemma AwaitingExits(s: Shell, e: Event, codes: set<int>)
    requires LimitInRange(s.op.limit) && ExitFrom(s.op, codes)
    ensures var h := HandleAwaiting(s, e); h.Handled? ==> ExitFrom(h.shell.op, codes + ExitOf(e))
  {
    hide AfterCreate, AfterProcess, AfterRead, Fail, Cancel, PathComponent, ExitFrom, SameExit, ExitOf;
    FailExit(s, Unexpected);
    FailExit(s, PrimitiveFailed);
    FailExit(s, BadPath);
    CreateExit(s, e.what);
    ProcessExit(s, e.what, codes);
    ReadExits(s, e.what, codes);
    var h := HandleAwaiting(s, e);
    if e.source != s.op.id || e.what.WasCanceled? || e.what.HasFailed? || e.correlation != s.op.state.phase || !PathComponent(s.op.id)
       || Creating(s.op.state.phase) || !(s.op.state.phase.Process? || Reading(s.op.state.phase)) {
      SameExitFrom(h, s.op, codes, ExitOf(e));
    } else if Reading(s.op.state.phase) {
      if h.Handled? { MoreExits(h.shell.op, codes, ExitOf(e)); }
    } else {
      SameEvent(e, s.op.state.phase, s.op.id);
    }
  }

  lemma MoreExits(o: Operation, codes: set<int>, more: set<int>)
    requires ExitFrom(o, codes)
    ensures ExitFrom(o, codes + more)
  {
  }

  lemma SameEvent(e: Event, phase: Phase, id: Bytes)
    ensures ExitOf(Event(id, phase, e.what)) == ExitOf(e)
  {
  }

  lemma HandleExits(s: Shell, e: Option<Event>, codes: set<int>)
    requires LimitInRange(s.op.limit) && ExitFrom(s.op, codes)
    ensures var h := Handle(s, e);
            h.Handled? ==> ExitFrom(h.shell.op, codes + if e.Some? then ExitOf(e.value) else {})
  {
    hide HandleAwaiting, DispatchPhase, Fail, Cancel, PathComponent, ExitFrom, SameExit, ExitOf;
    FailExit(s, BadPath);
    FailExit(s, NotRecorded);
    FailExit(s, Interrupted);
    if e.Some? && s.op.status.Awaiting? {
      AwaitingExits(s, e.value, codes);
    } else {
      NextExit(s, WithState(s, s.op.state.(phase := CreateDirectory)));
      NextExit(s, s.(chunks := [], readSize := 0));
      ErrorExit(s.op);
      SameExitFrom(Handle(s, e), s.op, codes, if e.Some? then ExitOf(e.value) else {});
    }
  }

  lemma ErrorExit(o: Operation)
    ensures SameExit(Error, o)
  {
  }

  predicate ExitsFrom(r: Run, codes: set<int>) {
    ExitFrom(r.shell.op, codes) && forall i :: 0 <= i < |r.written| ==> ExitFrom(r.written[i], codes)
  }

  lemma MoveExits(r: Run, move: Move, codes: set<int>)
    requires LimitInRange(r.shell.op.limit) && ExitsFrom(r, codes) && MoveOn(r, move).Some?
    ensures ExitsFrom(MoveOn(r, move).value, codes + if move.Deliver? then ExitOf(move.event) else {})
  {
    hide Handle, ExitOf;
    var shell := match move case Deliver(_) => r.shell case CrashAndResume(from) => NewShell(r.written[from]).value;
    var event := match move case Deliver(event) => Some(event) case CrashAndResume(_) => None;
    HandleTells(shell, event);
    HandleExits(shell, event, codes);
  }

  lemma {:induction false} RunExits(r: Run, moves: seq<Move>, t: Run, codes: set<int>)
    requires LimitInRange(r.shell.op.limit) && ExitsFrom(r, codes) && Reaches(r, moves, t)
    ensures ExitsFrom(t, codes + Exits(moves))
    decreases |moves|
  {
    hide MoveOn, ExitsFrom, ExitOf;
    if moves == [] {
      assert codes + {} == codes;
    } else {
      var more := if moves[0].Deliver? then ExitOf(moves[0].event) else {};
      MoveExits(r, moves[0], codes);
      RunExits(MoveOn(r, moves[0]).value, moves[1..], t, codes + more);
      assert (codes + more) + Exits(moves[1..]) == codes + Exits(moves);
    }
  }

  /** A step that starts a process writes the checkpoint that says so. */
  predicate StartsInProcess(h: Handled) {
    h.Handled? && h.step.dispatch.Some? && h.step.dispatch.value.StartProcess? ==>
      h.step.checkpoint.Some? && h.step.checkpoint.value.status.Awaiting? && h.step.checkpoint.value.state.phase.Process?
  }

  lemma DispatchStarts(s: Shell)
    requires LimitInRange(s.op.limit)
    ensures StartsInProcess(DispatchPhase(s)) && StartsInProcess(Finish(s))
  {
    hide BoundOutput, ReadLimit, TailReadLimit;
  }

  lemma StartIsWritten(s: Shell, e: Option<Event>)
    requires LimitInRange(s.op.limit)
    ensures StartsInProcess(Handle(s, e))
  {
    hide BoundOutput, Concat, DispatchPhase, Finish, RequestOf;
    forall t: Shell | LimitInRange(t.op.limit) ensures StartsInProcess(DispatchPhase(t)) { DispatchStarts(t); }
    forall t: Shell | LimitInRange(t.op.limit) ensures StartsInProcess(Finish(t)) { DispatchStarts(t); }
  }

  // ------------------------------------------- what a shell always satisfies

  /** The bytes of the file that a phase reads. */
  function FileOf(phase: Phase, out: Bytes, err: Bytes): Bytes {
    if phase.ReadOut? || phase.ReadOutTail? then out else err
  }

  /** The state holds what its result needs of a capture. */
  predicate Told(limit: nat, capture: Bytes, size: int, head: Bytes, tail: Bytes) {
    && size == |capture|
    && if |capture| > ReadLimit(limit) then head == HeadWindow(capture, limit) && tail == TailWindow(capture, limit)
       else head == capture && tail == []
  }

  /** The state holds the head of a capture whose tail is still to be read. */
  predicate HalfTold(limit: nat, capture: Bytes, size: int, head: Bytes) {
    size == |capture| && |capture| > ReadLimit(limit) && head == HeadWindow(capture, limit)
  }

  /** What a phase may rely on. */
  predicate PhaseFits(o: Operation, out: Bytes, err: Bytes)
    requires LimitInRange(o.limit)
  {
    var s := o.state;
    match s.phase
    case ReadOut => s.pendingExit.Some?
    case ReadOutTail => s.pendingExit.Some? && HalfTold(o.limit, out, s.outSize, s.inlineOut)
    case ReadErr => s.pendingExit.Some? && Told(o.limit, out, s.outSize, s.inlineOut, s.inlineOutTail)
    case ReadErrTail =>
      s.pendingExit.Some? && Told(o.limit, out, s.outSize, s.inlineOut, s.inlineOutTail) && HalfTold(o.limit, err, s.errSize, s.inlineErr)
    case _ => true
  }

  /** A finished operation shows each capture as bounding all of it would. */
  predicate ResultFits(o: Operation, out: Bytes, err: Bytes)
    requires LimitInRange(o.limit)
  {
    o.status.Completed? ==>
      && o.state.phase.NoPhase? && o.state.result.Some?
      && o.state.result.value.out == BoundOutput(out, [], |out|, o.limit, OutPathOf(o))
      && o.state.result.value.err == BoundOutput(err, [], |err|, o.limit, ErrPathOf(o))
      && o.state.result.value.outSize == |out| && o.state.result.value.errSize == |err|
  }

  /** A checkpoint: acceptable to NewShell, and telling of the captures what its phase has read. */
  predicate Fits(o: Operation, out: Bytes, err: Bytes) {
    && Acceptable(o) && PhaseFits(o, out, err) && ResultFits(o, out, err)
  }

  /** The bytes read so far in this phase are those of the file at the request. */
  predicate ChunksFit(s: Shell, out: Bytes, err: Bytes)
    requires LimitInRange(s.op.limit)
  {
    var data := Concat(s.chunks);
    && s.readSize == |data|
    && if Reading(s.op.state.phase) && RequestOf(s.op).Some? then
         var request, file := RequestOf(s.op).value, FileOf(s.op.state.phase, out, err);
         && |data| <= request.count && 0 <= request.offset && request.offset + |data| <= |file|
         && data == file[request.offset..request.offset + |data|]
       else data == []
  }

  predicate ShellFits(s: Shell, out: Bytes, err: Bytes) { Fits(s.op, out, err) && ChunksFit(s, out, err) }

  /** The reads a shell is waiting for tell the truth about the file: its bytes at an offset,
      and its size. Events of another source or phase may say anything. */
  predicate Honest(s: Shell, e: Event, out: Bytes, err: Bytes) {
    Reading(s.op.state.phase) && e.source == s.op.id && e.correlation == s.op.state.phase ==>
      var file := FileOf(s.op.state.phase, out, err);
      match e.what
      case ReadOutput(Some(o)) => 0 <= o.offset && o.offset + |o.data| <= |file| && o.data == file[o.offset..o.offset + |o.data|]
      case ReadCompleted(Some(size)) => size == |file|
      case _ => true
  }

  /** A checkpoint is a fitting Shell that has read nothing yet. */
  lemma Reopened(o: Operation, out: Bytes, err: Bytes)
    requires Fits(o, out, err)
    ensures NewShell(o) == Some(Shell(o, [], 0)) && ShellFits(Shell(o, [], 0), out, err)
  {
    RequestInFile(o, out, err);
  }

  /** What a phase asks for lies in its file. */
  lemma RequestInFile(o: Operation, out: Bytes, err: Bytes)
    requires Fits(o, out, err)
    ensures Reading(o.state.phase) ==> RequestOf(o).Some?
    ensures Reading(o.state.phase) ==>
              var request := RequestOf(o).value;
              0 <= request.offset <= |FileOf(o.state.phase, out, err)| && request.count > 0
  {
  }

  // -------------------------------------------------------- every move keeps it

  /** A handled step whose machine and checkpoint fit. */
  predicate StepFits(h: Handled, out: Bytes, err: Bytes) {
    h.Handled? ==> ShellFits(h.shell, out, err) && (h.step.checkpoint.Some? ==> h.step.checkpoint.value == h.shell.op)
  }

  lemma FailFits(s: Shell, reason: Reason, out: Bytes, err: Bytes)
    requires Acceptable(s.op)
    ensures StepFits(Fail(s, reason), out, err) && StepFits(Cancel(s), out, err)
  {
  }

  /** Moving to a phase whose demands are met. */
  lemma DispatchFits(s: Shell, out: Bytes, err: Bytes)
    requires Acceptable(s.op) && PhaseFits(s.op, out, err) && Concat(s.chunks) == [] && s.readSize == 0
    ensures StepFits(DispatchPhase(s), out, err)
  {
    hide BoundOutput, HeadWindow, TailWindow;
    var o := s.op.(status := Awaiting);
    if Reading(s.op.state.phase) {
      assert Fits(o, out, err);
      RequestInFile(o, out, err);
    }
    FailFits(s, Unexpected, out, err);
  }

  lemma ConcatSnoc(chunks: seq<Bytes>, data: Bytes)
    ensures Concat(chunks + [data]) == Concat(chunks) + data
  {
    assert (chunks + [data])[..|chunks|] == chunks;
  }

  /** The last part of a command output: both captures are told. */
  lemma FinishFits(s: Shell, out: Bytes, err: Bytes)
    requires Acceptable(s.op) && s.op.state.pendingExit.Some? && Concat(s.chunks) == [] && s.readSize == 0
    requires Told(s.op.limit, out, s.op.state.outSize, s.op.state.inlineOut, s.op.state.inlineOutTail)
    requires Told(s.op.limit, err, s.op.state.errSize, s.op.state.inlineErr, s.op.state.inlineErrTail)
    ensures StepFits(Finish(s), out, err) && Finish(s).Handled? && Finish(s).shell.op.status.Completed?
    ensures Finish(s).shell.op.state.result.value.exitCode == s.op.state.pendingExit.value
  {
    hide BoundOutput, HeadWindow, TailWindow;
    ToldSuffices(s.op.limit, out, s.op.state.outSize, s.op.state.inlineOut, s.op.state.inlineOutTail, OutPathOf(s.op));
    ToldSuffices(s.op.limit, err, s.op.state.errSize, s.op.state.inlineErr, s.op.state.inlineErrTail, ErrPathOf(s.op));
  }

  lemma ToldSuffices(limit: nat, capture: Bytes, size: int, head: Bytes, tail: Bytes, path: Bytes)
    requires limit > 0 && Told(limit, capture, size, head, tail)
    ensures BoundOutput(head, tail, size, limit, path) == BoundOutput(capture, [], |capture|, limit, path)
  {
    hide BoundOutput, HeadWindow, TailWindow;
    if |capture| > ReadLimit(limit) { WindowsSuffice(capture, limit, path); }
  }

  /** What a completed read holds: the head of its file, or its tail. */
  lemma WindowRead(limit: int, file: Bytes, data: Bytes, tail: bool)
    requires LimitInRange(limit)
    requires !tail ==> data == file[..Min(ReadLimit(limit), |file|)]
    requires tail ==> |file| > ReadLimit(limit) && data == file[|file| - TailReadLimit(limit)..]
    ensures tail ==> data == TailWindow(file, limit) && |data| == TailReadLimit(limit)
    ensures !tail && |file| <= ReadLimit(limit) ==> data == file
    ensures !tail && |file| > ReadLimit(limit) ==>
              var headSize := ReadLimit(limit) - TailReadLimit(limit);
              |data| > headSize && data[..headSize] == HeadWindow(file, limit) && |HeadWindow(file, limit)| == headSize
  {
  }

  /** `data` is what the read of this phase asks for. */
  predicate IsWindow(s: Shell, data: Bytes, out: Bytes, err: Bytes)
    requires LimitInRange(s.op.limit)
  {
    var file := FileOf(s.op.state.phase, out, err);
    if ReadsTail(s.op.state.phase) then |file| > ReadLimit(s.op.limit) && data == file[|file| - TailReadLimit(s.op.limit)..]
    else data == file[..Min(ReadLimit(s.op.limit), |file|)]
  }

  lemma HeadFits(s: Shell, data: Bytes, out: Bytes, err: Bytes)
    requires Fits(s.op, out, err) && Concat(s.chunks) == [] && s.readSize == 0 && IsWindow(s, data, out, err)
    requires s.op.state.phase.ReadOut? || s.op.state.phase.ReadErr?
    ensures StepFits(Complete(s, data, |FileOf(s.op.state.phase, out, err)|), out, err)
  {
    hide BoundOutput, HeadWindow, TailWindow, Finish, DispatchPhase, ResultFits, StepFits, Concat;
    var file := FileOf(s.op.state.phase, out, err);
    var limit, state := s.op.limit, s.op.state;
    WindowRead(limit, file, data, false);
    var needsTail := |file| > ReadLimit(limit);
    var kept := if needsTail then data[..ReadLimit(limit) - TailReadLimit(limit)] else data;
    if state.phase.ReadOut? {
      var next := WithState(s, state.(inlineOut := kept, outSize := |file|, inlineOutTail := [], phase := if needsTail then ReadOutTail else ReadErr));
      DispatchFits(next, out, err);
    } else {
      var next := WithState(s, state.(inlineErr := kept, errSize := |file|, inlineErrTail := []));
      if needsTail { DispatchFits(WithState(next, next.op.state.(phase := ReadErrTail)), out, err); } else { FinishFits(next, out, err); }
    }
  }

  lemma TailFits(s: Shell, data: Bytes, out: Bytes, err: Bytes)
    requires Fits(s.op, out, err) && Concat(s.chunks) == [] && s.readSize == 0 && IsWindow(s, data, out, err)
    requires s.op.state.phase.ReadOutTail? || s.op.state.phase.ReadErrTail?
    ensures StepFits(Complete(s, data, |FileOf(s.op.state.phase, out, err)|), out, err)
  {
    hide BoundOutput, HeadWindow, TailWindow, Finish, DispatchPhase, ResultFits, StepFits, Concat;
    var file := FileOf(s.op.state.phase, out, err);
    WindowRead(s.op.limit, file, data, true);
    WindowRoom(s.op.limit, file);
    if s.op.state.phase.ReadOutTail? {
      DispatchFits(WithState(s, s.op.state.(inlineOutTail := data, phase := ReadErr)), out, err);
    } else {
      FinishFits(WithState(s, s.op.state.(inlineErrTail := data)), out, err);
    }
  }

  /** A completed read moves on with what the next phase relies on. */
  lemma CompleteFits(s: Shell, data: Bytes, out: Bytes, err: Bytes)
    requires Fits(s.op, out, err) && Reading(s.op.state.phase) && Concat(s.chunks) == [] && s.readSize == 0
    requires IsWindow(s, data, out, err)
    ensures StepFits(Complete(s, data, |FileOf(s.op.state.phase, out, err)|), out, err)
  {
    hide Fits, StepFits, Complete, IsWindow, Concat;
    if ReadsTail(s.op.state.phase) { TailFits(s, data, out, err); } else { HeadFits(s, data, out, err); }
  }

  /** Both windows together fit the limit. */
  lemma WindowRoom(limit: int, file: Bytes)
    requires LimitInRange(limit) && |file| > ReadLimit(limit)
    ensures |HeadWindow(file, limit)| + |TailWindow(file, limit)| <= ReadLimit(limit)
  {
  }

  /** One more chunk of the file. */
  lemma OutputFits(s: Shell, output: Output, out: Bytes, err: Bytes)
    requires ShellFits(s, out, err) && Reading(s.op.state.phase)
    requires Honest(s, Event(s.op.id, s.op.state.phase, ReadOutput(Some(output))), out, err)
    ensures StepFits(AfterRead(s, ReadOutput(Some(output))), out, err)
  {
    hide BoundOutput, HeadWindow, TailWindow, Concat, Fail, PhaseFits, Fits, ReadLimit, TailReadLimit;
    FitsAccepted(s.op, out, err);
    RequestInFile(s.op, out, err);
    FailFits(s, Unexpected, out, err);
    var request, file := RequestOf(s.op).value, FileOf(s.op.state.phase, out, err);
    ConcatSnoc(s.chunks, output.data);
    if output.offset == request.offset + s.readSize {
      assert file[request.offset..request.offset + s.readSize] + file[output.offset..output.offset + |output.data|] ==
             file[request.offset..output.offset + |output.data|];
    }
  }

  lemma FitsAccepted(o: Operation, out: Bytes, err: Bytes)
    requires Fits(o, out, err)
    ensures Acceptable(o)
  {
  }

  /** The read is complete: it has read what it asked for, or the whole file. */
  lemma CompletedFits(s: Shell, out: Bytes, err: Bytes)
    requires ShellFits(s, out, err) && Reading(s.op.state.phase)
    ensures StepFits(AfterRead(s, ReadCompleted(Some(|FileOf(s.op.state.phase, out, err)|))), out, err)
  {
    hide BoundOutput, HeadWindow, TailWindow, Complete, Concat, Fail;
    RequestInFile(s.op, out, err);
    FailFits(s, Unexpected, out, err);
    var request, file := RequestOf(s.op).value, FileOf(s.op.state.phase, out, err);
    var what := ReadCompleted(Some(|file|));
    if s.readSize == Min(request.count, |file| - request.offset) && (ReadsTail(s.op.state.phase) ==> |file| == request.offset + request.count) {
      NoChunks();
      CompleteFits(s.(chunks := [], readSize := 0), Concat(s.chunks), out, err);
    }
  }

  lemma ReadFits(s: Shell, what: Happening, out: Bytes, err: Bytes)
    requires ShellFits(s, out, err) && Reading(s.op.state.phase)
    requires Honest(s, Event(s.op.id, s.op.state.phase, what), out, err)
    ensures StepFits(AfterRead(s, what), out, err)
  {
    match what
    case ReadOutput(Some(o)) => OutputFits(s, o, out, err);
    case ReadCompleted(Some(size)) => CompletedFits(s, out, err);
    case _ => OtherReadFits(s, what, out, err);
  }

  lemma OtherReadFits(s: Shell, what: Happening, out: Bytes, err: Bytes)
    requires ShellFits(s, out, err) && Reading(s.op.state.phase)
    requires !(what.ReadOutput? && what.output.Some?) && !(what.ReadCompleted? && what.size.Some?)
    ensures StepFits(AfterRead(s, what), out, err)
  {
    hide BoundOutput, HeadWindow, TailWindow, Complete, Concat, Fail;
    FailFits(s, Unexpected, out, err);
  }

  lemma CreateFits(s: Shell, what: Happening, out: Bytes, err: Bytes)
    requires ShellFits(s, out, err) && (s.op.state.phase.CreateDirectory? || s.op.state.phase.CreateOut? || s.op.state.phase.CreateErr?)
    ensures StepFits(AfterCreate(s, what), out, err)
  {
    hide BoundOutput, HeadWindow, TailWindow, DispatchPhase;
    FailFits(s, Unexpected, out, err);
    var state := s.op.state;
    match state.phase
    case CreateDirectory => DispatchFits(WithState(s, state.(phase := CreateOut)), out, err);
    case CreateOut => DispatchFits(WithState(s, state.(outPath := OutPathOf(s.op), phase := CreateErr)), out, err);
    case _ => DispatchFits(WithState(s, state.(errPath := ErrPathOf(s.op), phase := Process)), out, err);
  }

  lemma ProcessFits(s: Shell, what: Happening, out: Bytes, err: Bytes)
    requires ShellFits(s, out, err) && s.op.state.phase.Process?
    ensures StepFits(AfterProcess(s, what), out, err)
  {
    hide BoundOutput, HeadWindow, TailWindow, DispatchPhase;
    FailFits(s, Unexpected, out, err);
    var state := s.op.state;
    match what
    case ProcessExited(Some(exit)) =>
      DispatchFits(WithState(s, state.(group := 0, pendingExit := Some(ExitStatus(exit)), phase := ReadOut)), out, err);
    case _ =>
  }

  lemma HandleFits(s: Shell, e: Option<Event>, out: Bytes, err: Bytes)
    requires ShellFits(s, out, err) && (e.Some? ==> Honest(s, e.value, out, err))
    ensures StepFits(Handle(s, e), out, err)
  {
    hide BoundOutput, HeadWindow, TailWindow, AfterCreate, AfterProcess, AfterRead, DispatchPhase, Honest, PhaseFits;
    FailFits(s, Unexpected, out, err);
    FailFits(s, BadPath, out, err);
    FailFits(s, PrimitiveFailed, out, err);
    FailFits(s, NotRecorded, out, err);
    FailFits(s, Interrupted, out, err);
    var state := s.op.state;
    if s.op.status.Ready? && e.None? && state.phase.NoPhase? {
      InitialFits(s, out, err);
    } else if s.op.status.Awaiting? && e.None? {
      NoChunks();
      DispatchFits(s.(chunks := [], readSize := 0), out, err);
    } else if s.op.status.Awaiting? {
      var what := e.value.what;
      if state.phase.CreateDirectory? || state.phase.CreateOut? || state.phase.CreateErr? { CreateFits(s, what, out, err); }
      if state.phase.Process? { ProcessFits(s, what, out, err); }
      if Reading(state.phase) && e.value.source == s.op.id && e.value.correlation == state.phase { ReadFits(s, what, out, err); }
    }
  }

  lemma NoChunks()
    ensures Concat([]) == []
  {
  }

  lemma InitialFits(s: Shell, out: Bytes, err: Bytes)
    requires ShellFits(s, out, err) && s.op.state.phase.NoPhase?
    ensures StepFits(Next(s, CreateDirectory), out, err)
  {
    hide BoundOutput, HeadWindow, TailWindow, DispatchPhase;
    DispatchFits(WithState(s, s.op.state.(phase := CreateDirectory)), out, err);
  }

  // --------------------------------------------------------------- whole runs

  /** Everything written so far can be resumed, and fits. */
  predicate RunFits(r: Run, out: Bytes, err: Bytes) {
    ShellFits(r.shell, out, err) && forall i :: 0 <= i < |r.written| ==> Fits(r.written[i], out, err)
  }

  lemma MoveFits(r: Run, move: Move, out: Bytes, err: Bytes)
    requires RunFits(r, out, err) && MoveOn(r, move).Some?
    requires move.Deliver? ==> Honest(r.shell, move.event, out, err)
    ensures RunFits(MoveOn(r, move).value, out, err)
  {
    hide Handle, Honest, ChunksFit, PhaseFits, ResultFits, Acceptable;
    match move
    case Deliver(event) => HandleFits(r.shell, Some(event), out, err);
    case CrashAndResume(from) =>
      Reopened(r.written[from], out, err);
      HandleFits(NewShell(r.written[from]).value, None, out, err);
  }

  /** A run in which every read is honest about the captures. */
  predicate HonestRun(r: Run, moves: seq<Move>, t: Run, out: Bytes, err: Bytes)
    requires LimitInRange(r.shell.op.limit)
    decreases |moves|
  {
    if moves == [] then t == r
    else
      && (moves[0].Deliver? ==> Honest(r.shell, moves[0].event, out, err))
      && MoveOn(r, moves[0]).Some? && LimitInRange(MoveOn(r, moves[0]).value.shell.op.limit)
      && HonestRun(MoveOn(r, moves[0]).value, moves[1..], t, out, err)
  }

  lemma {:induction false} RunKeeps(r: Run, moves: seq<Move>, t: Run, out: Bytes, err: Bytes)
    requires LimitInRange(r.shell.op.limit) && RunFits(r, out, err) && HonestRun(r, moves, t, out, err)
    ensures RunFits(t, out, err)
    decreases |moves|
  {
    hide RunFits, Honest, MoveOn;
    if moves != [] {
      MoveFits(r, moves[0], out, err);
      RunKeeps(MoveOn(r, moves[0]).value, moves[1..], t, out, err);
    }
  }

  /** A new operation, as NewShellSpec makes it. */
  predicate IsNew(o: Operation) {
    && o.status.Ready? && LimitInRange(o.limit) && ValidState(o.state) && o.state.phase.NoPhase?
    && o.state.inlineOut == [] && o.state.inlineOutTail == [] && o.state.inlineErr == [] && o.state.inlineErrTail == []
    && o.state.result.None? && o.state.failure.None?
  }

  /** Whatever run of a new operation, with any number of crashes at any checkpoint: every
      checkpoint passes NewShell's validation, and if the operation completes, its result is
      that of bounding the whole captures, though no more than their windows was ever held,
      with the status of a process exit that was delivered. */
  lemma EveryRunIsRight(o: Operation, moves: seq<Move>, t: Run, out: Bytes, err: Bytes)
    requires IsNew(o) && HonestRun(Run(Shell(o, [], 0), [o], 0), moves, t, out, err)
    ensures forall i :: 0 <= i < |t.written| ==> NewShell(t.written[i]).Some?
    ensures LimitInRange(t.shell.op.limit) && ResultFits(t.shell.op, out, err)
    ensures o.state.pendingExit.None? && t.shell.op.status.Completed? ==> t.shell.op.state.result.value.exitCode in Exits(moves)
  {
    hide HonestRun, BoundOutput, PhaseFits, Exits, Reaches;
    assert Fits(o, out, err) by { NewFits(o, out, err); }
    NoChunks();
    HonestReaches(Run(Shell(o, [], 0), [o], 0), moves, t, out, err);
    if o.state.pendingExit.None? { RunExits(Run(Shell(o, [], 0), [o], 0), moves, t, {}); }
    RunKeeps(Run(Shell(o, [], 0), [o], 0), moves, t, out, err);
  }

  lemma {:induction false} HonestReaches(r: Run, moves: seq<Move>, t: Run, out: Bytes, err: Bytes)
    requires LimitInRange(r.shell.op.limit) && HonestRun(r, moves, t, out, err)
    ensures Reaches(r, moves, t)
    decreases |moves|
  {
    hide MoveOn, Honest;
    if moves != [] { HonestReaches(MoveOn(r, moves[0]).value, moves[1..], t, out, err); }
  }

  lemma NewFits(o: Operation, out: Bytes, err: Bytes)
    requires IsNew(o)
    ensures Fits(o, out, err)
  {
  }

  // --------------------------------------------------------------- progress

  function Rank(phase: Phase): nat {
    match phase
    case CreateDirectory => 8 case CreateOut => 7 case CreateErr => 6 case Process => 5
    case ReadOut => 4 case ReadOutTail => 3 case ReadErr => 2 case ReadErrTail => 1
    case _ => 0
  }

  /** What is left to read in the phase. */
  function Left(s: Shell): int
    requires LimitInRange(s.op.limit)
  {
    if RequestOf(s.op).Some? then RequestOf(s.op).value.count - s.readSize else 0
  }

  predicate Finished(o: Operation) { o.status.Completed? || o.status.Failed? || o.status.Canceled? }

  /** Every read event moves the machine on: it finishes, or its phase advances, or there is
      less left to read. (A read never delivers an empty output.) */
  lemma ReadsMakeProgress(s: Shell, e: Event, out: Bytes, err: Bytes)
    requires ShellFits(s, out, err) && Honest(s, e, out, err)
    requires s.op.status.Awaiting? && Reading(s.op.state.phase)
    requires e.what.ReadOutput? && e.what.output.Some? ==> e.what.output.value.data != []
    ensures Handle(s, Some(e)).Handled?
    ensures var t := Handle(s, Some(e)).shell;
            && LimitInRange(t.op.limit)
            && (Finished(t.op) || Rank(t.op.state.phase) < Rank(s.op.state.phase)
                || (t.op.state.phase == s.op.state.phase && 0 <= Left(t) < Left(s)))
  {
    hide BoundOutput, HeadWindow, TailWindow, Concat, Honest, AfterRead, PhaseFits, ResultFits;
    HandleFits(s, Some(e), out, err);
    RequestInFile(s.op, out, err);
    ReadProgress(s, e.what);
  }

  /** A chunk leaves less to read; anything else ends the phase. */
  lemma ReadProgress(s: Shell, what: Happening)
    requires LimitInRange(s.op.limit) && Reading(s.op.state.phase)
    requires what.ReadOutput? && what.output.Some? ==> what.output.value.data != []
    ensures var h := AfterRead(s, what);
            && h.Handled? && h.shell.op.limit == s.op.limit
            && (Finished(h.shell.op) || Rank(h.shell.op.state.phase) < Rank(s.op.state.phase)
                || (h.shell.op == s.op && 0 <= Left(h.shell) < Left(s)))
  {
    hide Concat, Complete;
    match what
    case ReadCompleted(Some(size)) => CompleteProgress(s.(chunks := [], readSize := 0), Concat(s.chunks), size);
    case _ =>
  }

  lemma CompleteProgress(s: Shell, data: Bytes, size: int)
    requires LimitInRange(s.op.limit) && Reading(s.op.state.phase)
    ensures var h := Complete(s, data, size);
            && h.Handled? && h.shell.op.limit == s.op.limit
            && (Finished(h.shell.op) || Rank(h.shell.op.state.phase) < Rank(s.op.state.phase))
  {
    hide BoundOutput, RequestOf;
  }
}
