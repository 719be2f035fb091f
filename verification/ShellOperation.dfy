/**
  The shell operation (harness/operation/shell.go): a machine over phases that writes a
  checkpoint with every move, and is resumed from its last checkpoint after a crash.

  Encoding a checkpoint as JSON and bounding the text of an error are not modelled.
 */
module ShellOperation {
  import opened Llm
  import opened Utf8
  import opened BoundedOutput

  const SLASH: Byte := 47
  const DOT: Byte := 46
  const MAX_OUTPUT_LENGTH := 1_000_000

  datatype Phase =
    | NoPhase | CreateDirectory | CreateOut | CreateErr | Process | ReadOut | ReadOutTail | ReadErr | ReadErrTail | UnknownPhase

  datatype Status = Ready | Awaiting | Canceling | Completed | Failed | Canceled | Unsupported

  datatype Reason = BadPath | NotRecorded | Interrupted | Stopped | PrimitiveFailed | Unexpected | NoExitStatus

  datatype Result = Result(out: Bounded, err: Bounded, outSize: int, errSize: int, exitCode: int)

  datatype State = State(
    command: Bytes, shellPath: Bytes, directory: Bytes, base: Bytes, phase: Phase, group: int, pendingExit: Option<int>,
    outSize: int, errSize: int, inlineOut: Bytes, inlineErr: Bytes, inlineOutTail: Bytes, inlineErrTail: Bytes,
    result: Option<Result>, failure: Option<Reason>, outTruncated: bool, errTruncated: bool, outPath: Bytes, errPath: Bytes)

  /** An operation: what never changes, its status and its state. */
  datatype Operation = Operation(id: Bytes, limit: int, status: Status, state: State)

  /** A Shell: the operation, and what it has read in the current phase. */
  datatype Shell = Shell(op: Operation, chunks: seq<Bytes>, readSize: int)

  datatype CreateKind = Directory | RegularFile

  datatype ReadRequest = ReadRequest(path: Bytes, offset: int, count: int)

  datatype Dispatch = Create(kind: CreateKind, path: Bytes) | StartProcess(out: Bytes, err: Bytes) | Read(request: ReadRequest)

  /** What a step asks for: a checkpoint, and at most one primitive. */
  datatype Step = Step(checkpoint: Option<Operation>, dispatch: Option<Dispatch>)

  /** The payload of a primitive event; None is a result of the wrong type. */
  datatype Happening =
    | WasCanceled
    | HasFailed
    | Created(kind: Option<CreateKind>)
    | ProcessStarted(pid: Option<int>)
    | ProcessExited(exit: Option<Exit>)
    | ReadOutput(output: Option<Output>)
    | ReadCompleted(size: Option<int>)
    | ComputeCompleted
    | OtherEvent

  datatype Exit = Exit(exitCode: int, signal: int)
  datatype Output = Output(offset: int, data: Bytes)

  datatype Event = Event(source: Bytes, correlation: Phase, what: Happening)

  datatype Handled = Error | Handled(shell: Shell, step: Step)

  // ------------------------------------------------------------------ paths

  predicate IsAbs(path: Bytes) { path != [] && path[0] == SLASH }

  /** newShellPaths accepts the ID. */
  predicate PathComponent(id: Bytes) { id != [] && id != [DOT] && id != [DOT, DOT] && SLASH !in id }

  function Join(a: Bytes, b: Bytes): Bytes { a + [SLASH] + b }

  const OUT: Bytes := [111, 117, 116]
  const ERR: Bytes := [101, 114, 114]

  function DirectoryOf(o: Operation): Bytes { Join(o.state.base, o.id) }
  function OutPathOf(o: Operation): Bytes { Join(DirectoryOf(o), OUT) }
  function ErrPathOf(o: Operation): Bytes { Join(DirectoryOf(o), ERR) }

  // --------------------------------------------------------------- validity

  /** validateShellState. */
  predicate ValidState(s: State) {
    && IsAbs(s.shellPath) && IsAbs(s.base)
    && s.group >= 0 && s.group != 1 && s.outSize >= 0 && s.errSize >= 0
  }

  predicate LimitInRange(limit: int) { 0 < limit <= MAX_OUTPUT_LENGTH }

  /** What NewShell accepts. */
  predicate Acceptable(o: Operation) {
    && LimitInRange(o.limit) && ValidState(o.state)
    && |o.state.inlineOut| + |o.state.inlineOutTail| <= ReadLimit(o.limit)
    && |o.state.inlineErr| + |o.state.inlineErrTail| <= ReadLimit(o.limit)
  }

  function NewShell(o: Operation): Option<Shell> { if Acceptable(o) then Some(Shell(o, [], 0)) else None }

  // ------------------------------------------------------------- the machine

  function Checkpoint(s: Shell, dispatch: Option<Dispatch>): Handled { Handled(s, Step(Some(s.op), dispatch)) }

  function WithState(s: Shell, state: State): Shell { s.(op := s.op.(state := state)) }

  function Fail(s: Shell, reason: Reason): Handled {
    Checkpoint(Shell(s.op.(status := Failed, state := s.op.state.(phase := NoPhase, failure := Some(reason))), [], 0), None)
  }

  function Cancel(s: Shell): Handled {
    Checkpoint(Shell(s.op.(status := Canceled, state := s.op.state.(phase := NoPhase, failure := Some(Stopped))), [], 0), None)
  }

  function Await(s: Shell, dispatch: Option<Dispatch>): Handled { Checkpoint(s.(op := s.op.(status := Awaiting)), dispatch) }

  predicate Reading(phase: Phase) { phase.ReadOut? || phase.ReadOutTail? || phase.ReadErr? || phase.ReadErrTail? }

  predicate ReadsTail(phase: Phase) { phase.ReadOutTail? || phase.ReadErrTail? }

  /** readRequest; None is an error. */
  function RequestOf(o: Operation): Option<ReadRequest>
    requires LimitInRange(o.limit)
  {
    if !Reading(o.state.phase) then None
    else
      var out := o.state.phase.ReadOut? || o.state.phase.ReadOutTail?;
      var path := if out then OutPathOf(o) else ErrPathOf(o);
      var size := if out then o.state.outSize else o.state.errSize;
      if !ReadsTail(o.state.phase) then Some(ReadRequest(path, 0, ReadLimit(o.limit)))
      else if size <= ReadLimit(o.limit) then None
      else Some(ReadRequest(path, size - TailReadLimit(o.limit), TailReadLimit(o.limit)))
  }

  /** dispatchPhase. */
  function DispatchPhase(s: Shell): Handled
    requires LimitInRange(s.op.limit)
  {
    match s.op.state.phase
    case CreateDirectory => Await(s, Some(Create(Directory, DirectoryOf(s.op))))
    case CreateOut => Await(s, Some(Create(RegularFile, OutPathOf(s.op))))
    case CreateErr => Await(s, Some(Create(RegularFile, ErrPathOf(s.op))))
    case Process => Await(s, Some(StartProcess(OutPathOf(s.op), ErrPathOf(s.op))))
    case NoPhase => Fail(s, Unexpected)
    case UnknownPhase => Fail(s, Unexpected)
    case _ =>
      match RequestOf(s.op)
      case None => Fail(s, Unexpected)
      case Some(request) => Await(s, Some(Read(request)))
  }

  function Next(s: Shell, phase: Phase): Handled
    requires LimitInRange(s.op.limit)
  {
    DispatchPhase(WithState(s, s.op.state.(phase := phase)))
  }

  /** resume: a process that may have run is never started again. */
  function Resume(s: Shell): Handled
    requires LimitInRange(s.op.limit)
  {
    if s.op.state.phase.Process? then Fail(s, if s.op.state.group == 0 then NotRecorded else Interrupted)
    else if !PathComponent(s.op.id) then Fail(s, BadPath)
    else DispatchPhase(s.(chunks := [], readSize := 0))
  }

  function AfterCreate(s: Shell, what: Happening): Handled
    requires LimitInRange(s.op.limit)
  {
    var state := s.op.state;
    var kind := if state.phase.CreateDirectory? then Directory else RegularFile;
    if what != Created(Some(kind)) then Fail(s, Unexpected)
    else
      match state.phase
      case CreateDirectory => Next(s, CreateOut)
      case CreateOut => Next(WithState(s, state.(outPath := OutPathOf(s.op))), CreateErr)
      case _ => Next(WithState(s, state.(errPath := ErrPathOf(s.op))), Process)
  }

  /** shellExitStatus. */
  function ExitStatus(exit: Exit): int { if exit.signal != 0 then 128 + exit.signal else exit.exitCode }

  function AfterProcess(s: Shell, what: Happening): Handled
    requires LimitInRange(s.op.limit)
  {
    match what
    case ProcessStarted(pid) =>
      if pid.None? || pid.value <= 1 then Fail(s, Unexpected) else Await(WithState(s, s.op.state.(group := pid.value)), None)
    case ProcessExited(exit) =>
      if exit.None? then Fail(s, Unexpected)
      else Next(WithState(s, s.op.state.(group := 0, pendingExit := Some(ExitStatus(exit.value)))), ReadOut)
    case _ => Fail(s, Unexpected)
  }

  function Concat(chunks: seq<Bytes>): Bytes { if chunks == [] then [] else Concat(chunks[..|chunks| - 1]) + chunks[|chunks| - 1] }

  function Min(a: int, b: int): int { if a < b then a else b }

  function AfterRead(s: Shell, what: Happening): Handled
    requires LimitInRange(s.op.limit)
  {
    match RequestOf(s.op)
    case None => Fail(s, Unexpected)
    case Some(request) =>
      match what
      case ReadOutput(output) =>
        if output.None? || output.value.offset != request.offset + s.readSize || |output.value.data| > request.count - s.readSize
        then Fail(s, Unexpected)
        else Handled(s.(chunks := s.chunks + [output.value.data], readSize := s.readSize + |output.value.data|), Step(None, None))
      case ReadCompleted(size) =>
        if size.None? || size.value < request.offset || s.readSize != Min(request.count, size.value - request.offset)
           || (ReadsTail(s.op.state.phase) && size.value != request.offset + request.count)
        then Fail(s, Unexpected)
        else Complete(s.(chunks := [], readSize := 0), Concat(s.chunks), size.value)
      case _ => Fail(s, Unexpected)
  }

  /** readCompleted. */
  function Complete(s: Shell, data: Bytes, size: int): Handled
    requires LimitInRange(s.op.limit)
  {
    var state := s.op.state;
    var needsTail := size > ReadLimit(s.op.limit);
    var headSize := ReadLimit(s.op.limit) - TailReadLimit(s.op.limit);
    var kept := if needsTail && !ReadsTail(state.phase) && |data| > headSize then data[..headSize] else data;
    match state.phase
    case ReadOut =>
      var next := WithState(s, state.(inlineOut := kept, outSize := size, inlineOutTail := []));
      if needsTail then Next(next, ReadOutTail) else Next(next, ReadErr)
    case ReadOutTail => Next(WithState(s, state.(inlineOutTail := data)), ReadErr)
    case ReadErr =>
      var next := WithState(s, state.(inlineErr := kept, errSize := size, inlineErrTail := []));
      if needsTail then Next(next, ReadErrTail) else Finish(next)
    case ReadErrTail => Finish(WithState(s, state.(inlineErrTail := data)))
    case _ => Fail(s, Unexpected)
  }

  predicate IsTruncated(b: Bounded) { !b.Whole? }

  function Finish(s: Shell): Handled
    requires LimitInRange(s.op.limit)
  {
    var o, state := s.op, s.op.state;
    if state.pendingExit.None? then Fail(s, NoExitStatus)
    else
      var out := BoundOutput(state.inlineOut, state.inlineOutTail, state.outSize, o.limit, OutPathOf(o));
      var err := BoundOutput(state.inlineErr, state.inlineErrTail, state.errSize, o.limit, ErrPathOf(o));
      var done := state.(
        result := Some(Result(out, err, state.outSize, state.errSize, state.pendingExit.value)),
        outTruncated := IsTruncated(out), errTruncated := IsTruncated(err), outPath := OutPathOf(o), errPath := ErrPathOf(o),
        pendingExit := None, inlineOut := [], inlineErr := [], inlineOutTail := [], inlineErrTail := [], phase := NoPhase);
      Checkpoint(s.(op := o.(status := Completed, state := done)), None)
  }

  /** handleAwaiting. */
  function HandleAwaiting(s: Shell, e: Event): Handled
    requires LimitInRange(s.op.limit)
  {
    var phase := s.op.state.phase;
    if e.source != s.op.id then Fail(s, Unexpected)
    else if e.what.WasCanceled? then Cancel(s)
    else if e.what.HasFailed? then Fail(s, PrimitiveFailed)
    else if e.correlation != phase then Fail(s, Unexpected)
    else if !PathComponent(s.op.id) then Fail(s, BadPath)
    else if phase.CreateDirectory? || phase.CreateOut? || phase.CreateErr? then AfterCreate(s, e.what)
    else if phase.Process? then AfterProcess(s, e.what)
    else if Reading(phase) then AfterRead(s, e.what)
    else Fail(s, Unexpected)
  }

  /** Handle; None as an event starts or resumes. */
  function Handle(s: Shell, e: Option<Event>): Handled
    requires LimitInRange(s.op.limit)
  {
    match s.op.status
    case Ready =>
      if e.Some? || s.op.state.phase != NoPhase || s.op.state.result.Some? || s.op.state.failure.Some? then Error
      else if !PathComponent(s.op.id) then Fail(s, BadPath)
      else Next(s, CreateDirectory)
    case Awaiting => if e.None? then Resume(s) else HandleAwaiting(s, e.value)
    case Canceling => if e.Some? then Error else Cancel(s)
    case _ => Error
  }
}
