/**
  The shell operation as the object it is (harness/operation/shell.go): its methods update
  the operation, the state and the chunks read so far in place, and are proved against the
  functions of ShellOperation.
 */
module ShellObject {
  import opened Llm
  import opened Utf8
  import BoundedOutput
  import opened ShellOperation

  class ShellActor {
    var id: Bytes
    var limit: int
    var status: Status
    var state: State
    var chunks: seq<Bytes>
    var readSize: int

    ghost function View(): Shell
      reads this
    {
      Shell(Operation(id, limit, status, state), chunks, readSize)
    }

    /** NewShell, for an operation it accepts. */
    constructor (o: Operation)
      requires Acceptable(o)
      ensures Some(View()) == NewShell(o)
    {
      id, limit, status, state := o.id, o.limit, o.status, o.state;
      chunks, readSize := [], 0;
    }

    /** The result of a method, against the step that `spec` makes. */
    ghost predicate Did(step: Step, spec: Handled)
      reads this
    {
      spec == Handled(View(), step)
    }

    method WriteCheckpoint() returns (o: ShellOperation.Operation)
      ensures o == View().op
    {
      o := Operation(id, limit, status, state);
    }

    method FailWith(reason: Reason) returns (step: Step)
      modifies this
      ensures Did(step, Fail(old(View()), reason))
    {
      chunks, readSize := [], 0;
      state := state.(phase := NoPhase, failure := Some(reason));
      status := Failed;
      var o := WriteCheckpoint();
      step := Step(Some(o), None);
    }

    method CancelNow() returns (step: Step)
      modifies this
      ensures Did(step, Cancel(old(View())))
    {
      chunks, readSize := [], 0;
      state := state.(phase := NoPhase, failure := Some(Stopped));
      status := Canceled;
      var o := WriteCheckpoint();
      step := Step(Some(o), None);
    }

    method AwaitWith(dispatch: Option<Dispatch>) returns (step: Step)
      modifies this
      ensures Did(step, Await(old(View()), dispatch))
    {
      status := Awaiting;
      var o := WriteCheckpoint();
      step := Step(Some(o), dispatch);
    }

    method ReadRequestNow() returns (r: Option<ReadRequest>)
      requires LimitInRange(limit)
      ensures r == RequestOf(View().op)
    {
      var directory := Join(state.base, id);
      var path, size;
      match state.phase {
        case ReadOut => path, size := Join(directory, OUT), state.outSize;
        case ReadOutTail => path, size := Join(directory, OUT), state.outSize;
        case ReadErr => path, size := Join(directory, ERR), state.errSize;
        case ReadErrTail => path, size := Join(directory, ERR), state.errSize;
        case _ => return None;
      }
      if ReadsTail(state.phase) {
        if size <= BoundedOutput.ReadLimit(limit) { return None; }
        var count := BoundedOutput.TailReadLimit(limit);
        return Some(ReadRequest(path, size - count, count));
      }
      r := Some(ReadRequest(path, 0, BoundedOutput.ReadLimit(limit)));
    }

    method DispatchNow() returns (step: Step)
      requires LimitInRange(limit)
      modifies this
      ensures Did(step, DispatchPhase(old(View())))
    {
      hide RequestOf;
      var directory := Join(state.base, id);
      match state.phase {
        case CreateDirectory => step := AwaitWith(Some(Create(Directory, directory)));
        case CreateOut => step := AwaitWith(Some(Create(RegularFile, Join(directory, OUT))));
        case CreateErr => step := AwaitWith(Some(Create(RegularFile, Join(directory, ERR))));
        case Process => step := AwaitWith(Some(StartProcess(Join(directory, OUT), Join(directory, ERR))));
        case NoPhase => step := FailWith(Unexpected);
        case UnknownPhase => step := FailWith(Unexpected);
        case _ =>
          var request := ReadRequestNow();
          if request.None? { step := FailWith(Unexpected); } else { step := AwaitWith(Some(Read(request.value))); }
      }
    }

    method MoveTo(phase: Phase) returns (step: Step)
      requires LimitInRange(limit)
      modifies this
      ensures Did(step, Next(old(View()), phase))
    {
      state := state.(phase := phase);
      step := DispatchNow();
    }

    method ResumeNow() returns (step: Step)
      requires LimitInRange(limit)
      modifies this
      ensures Did(step, Resume(old(View())))
    {
      hide DispatchPhase;
      if state.phase.Process? {
        if state.group == 0 { step := FailWith(NotRecorded); } else { step := FailWith(Interrupted); }
        return;
      }
      if !PathComponent(id) {
        step := FailWith(BadPath);
        return;
      }
      chunks, readSize := [], 0;
      step := DispatchNow();
    }

    method HandleCreated(what: Happening) returns (step: Step)
      requires LimitInRange(limit)
      modifies this
      ensures Did(step, AfterCreate(old(View()), what))
    {
      hide DispatchPhase;
      var kind := if state.phase.CreateDirectory? then Directory else RegularFile;
      if what != Created(Some(kind)) {
        step := FailWith(Unexpected);
        return;
      }
      var directory := Join(state.base, id);
      match state.phase {
        case CreateDirectory => step := MoveTo(CreateOut);
        case CreateOut =>
          state := state.(outPath := Join(directory, OUT));
          step := MoveTo(CreateErr);
        case _ =>
          state := state.(errPath := Join(directory, ERR));
          step := MoveTo(Process);
      }
    }

    method HandleProcess(what: Happening) returns (step: Step)
      requires LimitInRange(limit)
      modifies this
      ensures Did(step, AfterProcess(old(View()), what))
    {
      hide DispatchPhase;
      match what {
        case ProcessStarted(pid) =>
          if pid.None? || pid.value <= 1 {
            step := FailWith(Unexpected);
            return;
          }
          state := state.(group := pid.value);
          step := AwaitWith(None);
        case ProcessExited(exit) =>
          if exit.None? {
            step := FailWith(Unexpected);
            return;
          }
          state := state.(group := 0, pendingExit := Some(ExitStatus(exit.value)));
          step := MoveTo(ReadOut);
        case _ => step := FailWith(Unexpected);
      }
    }

    /** bytes.Join of the chunks. */
    method JoinChunks() returns (data: Bytes)
      ensures data == Concat(chunks)
    {
      data := [];
      for i := 0 to |chunks|
        invariant data == Concat(chunks[..i])
      {
        assert chunks[..i + 1][..i] == chunks[..i];
        data := data + chunks[i];
      }
      assert chunks[..|chunks|] == chunks;
    }

    method HandleRead(what: Happening) returns (step: Step)
      requires LimitInRange(limit)
      modifies this
      ensures Did(step, AfterRead(old(View()), what))
    {
      hide Complete, Concat, Fail;
      var request := ReadRequestNow();
      if request.None? {
        step := FailWith(Unexpected);
        return;
      }
      match what {
        case ReadOutput(output) =>
          if output.None? || output.value.offset != request.value.offset + readSize || |output.value.data| > request.value.count - readSize {
            step := FailWith(Unexpected);
            return;
          }
          chunks := chunks + [output.value.data];
          readSize := readSize + |output.value.data|;
          step := Step(None, None);
        case ReadCompleted(size) =>
          if size.None? || size.value < request.value.offset || readSize != Min(request.value.count, size.value - request.value.offset) {
            step := FailWith(Unexpected);
            return;
          }
          if ReadsTail(state.phase) && size.value != request.value.offset + request.value.count {
            step := FailWith(Unexpected);
            return;
          }
          var data := JoinChunks();
          chunks, readSize := [], 0;
          step := HandleCompleted(data, size.value);
        case _ => step := FailWith(Unexpected);
      }
    }

    method HandleCompleted(data: Bytes, size: int) returns (step: Step)
      requires LimitInRange(limit)
      modifies this
      ensures Did(step, Complete(old(View()), data, size))
    {
      hide DispatchPhase, Finish, Fail;
      var needsTail := size > BoundedOutput.ReadLimit(limit);
      var kept := data;
      if needsTail && !ReadsTail(state.phase) {
        var headSize := BoundedOutput.ReadLimit(limit) - BoundedOutput.TailReadLimit(limit);
        if |kept| > headSize { kept := kept[..headSize]; }
      }
      match state.phase {
        case ReadOut =>
          state := state.(inlineOut := kept, outSize := size, inlineOutTail := []);
          if needsTail { step := MoveTo(ReadOutTail); } else { step := MoveTo(ReadErr); }
        case ReadOutTail =>
          state := state.(inlineOutTail := data);
          step := MoveTo(ReadErr);
        case ReadErr =>
          state := state.(inlineErr := kept, errSize := size, inlineErrTail := []);
          if needsTail { step := MoveTo(ReadErrTail); } else { step := FinishNow(); }
        case ReadErrTail =>
          state := state.(inlineErrTail := data);
          step := FinishNow();
        case _ => step := FailWith(Unexpected);
      }
    }

    method FinishNow() returns (step: Step)
      requires LimitInRange(limit)
      modifies this
      ensures Did(step, Finish(old(View())))
    {
      hide BoundedOutput.BoundOutput;
      if state.pendingExit.None? {
        step := FailWith(NoExitStatus);
        return;
      }
      var directory := Join(state.base, id);
      var outPath, errPath := Join(directory, OUT), Join(directory, ERR);
      var out := BoundedOutput.BoundOutputOf(state.inlineOut, state.inlineOutTail, state.outSize, limit, outPath);
      var err := BoundedOutput.BoundOutputOf(state.inlineErr, state.inlineErrTail, state.errSize, limit, errPath);
      state := state.(
        result := Some(Result(out, err, state.outSize, state.errSize, state.pendingExit.value)),
        outTruncated := IsTruncated(out), errTruncated := IsTruncated(err), outPath := outPath, errPath := errPath,
        pendingExit := None, inlineOut := [], inlineErr := [], inlineOutTail := [], inlineErrTail := [], phase := NoPhase);
      status := Completed;
      var o := WriteCheckpoint();
      step := Step(Some(o), None);
    }

    method HandleEvent(e: Event) returns (step: Step)
      requires LimitInRange(limit)
      modifies this
      ensures Did(step, HandleAwaiting(old(View()), e))
    {
      hide AfterCreate, AfterProcess, AfterRead, Fail, Cancel;
      if e.source != id {
        step := FailWith(Unexpected);
      } else if e.what.WasCanceled? {
        step := CancelNow();
      } else if e.what.HasFailed? {
        step := FailWith(PrimitiveFailed);
      } else if e.correlation != state.phase {
        step := FailWith(Unexpected);
      } else if !PathComponent(id) {
        step := FailWith(BadPath);
      } else {
        match state.phase {
          case CreateDirectory => step := HandleCreated(e.what);
          case CreateOut => step := HandleCreated(e.what);
          case CreateErr => step := HandleCreated(e.what);
          case Process => step := HandleProcess(e.what);
          case NoPhase => step := FailWith(Unexpected);
          case UnknownPhase => step := FailWith(Unexpected);
          case _ => step := HandleRead(e.what);
        }
      }
    }

    /** Handle: starts, resumes, or takes an event. */
    method HandleStep(e: Option<Event>) returns (ok: bool, step: Step)
      requires LimitInRange(limit)
      modifies this
      ensures ok <==> Handle(old(View()), e).Handled?
      ensures if ok then Did(step, Handle(old(View()), e)) else View() == old(View())
    {
      hide HandleAwaiting, Resume, DispatchPhase, Fail, Cancel;
      HandledAlways(View(), e);
      ok, step := true, Step(None, None);
      match status {
        case Ready =>
          if e.Some? || state.phase != NoPhase || state.result.Some? || state.failure.Some? { return false, step; }
          if !PathComponent(id) { step := FailWith(BadPath); } else { step := MoveTo(CreateDirectory); }
        case Awaiting =>
          if e.None? { step := ResumeNow(); } else { step := HandleEvent(e.value); }
        case Canceling =>
          if e.Some? { return false, step; }
          step := CancelNow();
        case _ => return false, step;
      }
    }
  }

  /** Only what Handle itself refuses is an error. */
  lemma HandledAlways(s: Shell, e: Option<Event>)
    requires LimitInRange(s.op.limit)
    ensures Fail(s, BadPath).Handled? && Cancel(s).Handled? && Next(s, CreateDirectory).Handled? && Resume(s).Handled?
    ensures e.Some? ==> HandleAwaiting(s, e.value).Handled?
  {
    hide BoundedOutput.BoundOutput, RequestOf;
  }
}
