/**
  Streaming a range of a file (harness/primitives/file.go): output events of at most one
  chunk each, in order, then exactly one terminal event; and how they drive a shell's
  read phase (harness/operation/shell.go) to its end.
 */
module FileStream {
  import opened Llm
  import opened Utf8
  import opened BoundedOutput
  import opened ShellOperation
  import opened ShellRuns

  const CHUNK := 32 * 1024

  /** What the file and the context do around one chunk. */
  datatype Luck = Fine | CanceledBefore | CanceledAfter | ReadFails | CanceledSending

  /** What happens before the loop and after it. */
  datatype Opening = Opens | CanceledAtOnce | OpenFails | StatFails | NotRegular
  datatype Ending = Undisturbed | CanceledAtEnd | StatFailsAgain | SizeChanged | CanceledLate

  predicate Terminal(what: Happening) { what.ReadCompleted? || what.HasFailed? || what.WasCanceled? }

  /** The bytes to read. */
  function Wanted(offset: int, count: int, size: int): int { if offset < size then Min(count, size - offset) else 0 }

  /** `events` are the chunks of `file[offset..offset + done]`, in order. */
  predicate Chunks(events: seq<Happening>, file: Bytes, offset: int, done: int) {
    && 0 <= offset && 0 <= done && (done > 0 ==> offset + done <= |file|)
    && forall k :: 0 <= k < |events| ==>
         && events[k].ReadOutput? && events[k].output.Some?
         && var o := events[k].output.value;
         && o.offset == offset + k * CHUNK && o.offset + |o.data| <= offset + done
         && 0 < |o.data| == Min(CHUNK, offset + done - o.offset)
         && o.data == file[o.offset..o.offset + |o.data|]
  }

  /** As many chunks as the bytes need. */
  predicate Covers(events: seq<Happening>, done: int) { if done == 0 then events == [] else (|events| - 1) * CHUNK < done <= |events| * CHUNK }

  /** A stream: chunks, then one terminal event; a completion comes after everything asked
      for, with the size of the file. */
  ghost predicate Streams(events: seq<Happening>, file: Bytes, offset: int, count: int) {
    && events != [] && Terminal(events[|events| - 1])
    && (forall k :: 0 <= k < |events| - 1 ==> events[k].ReadOutput?)
    && (events[|events| - 1].ReadCompleted? ==>
          && events[|events| - 1] == ReadCompleted(Some(|file|)) && offset >= 0 && count >= 0
          && Chunks(events[..|events| - 1], file, offset, Wanted(offset, count, |file|))
          && Covers(events[..|events| - 1], Wanted(offset, count, |file|)))
  }

  /** One terminal event after the chunks so far. */
  lemma Ends(events: seq<Happening>, what: Happening, file: Bytes, offset: int, count: int)
    requires what.HasFailed? || what.WasCanceled?
    requires forall k :: 0 <= k < |events| ==> events[k].ReadOutput?
    ensures Streams(events + [what], file, offset, count)
  {
  }

  lemma NoChunk(file: Bytes, offset: int, wanted: int)
    requires offset >= 0 && wanted >= 0 && (wanted > 0 ==> offset + wanted <= |file|)
    ensures Chunks([], file, offset, wanted)
  {
  }

  /** One chunk more. */
  lemma OneMoreChunk(events: seq<Happening>, file: Bytes, offset: int, wanted: int, fileOffset: int)
    requires Chunks(events, file, offset, wanted) && fileOffset == offset + |events| * CHUNK < offset + wanted <= |file|
    ensures var length := Min(offset + wanted - fileOffset, CHUNK);
            Chunks(events + [ReadOutput(Some(Output(fileOffset, file[fileOffset..fileOffset + length])))], file, offset, wanted)
  {
  }

  /** A completion after all the chunks. */
  lemma Completes(events: seq<Happening>, file: Bytes, offset: int, count: int)
    requires offset >= 0 && count >= 0
    requires Chunks(events, file, offset, Wanted(offset, count, |file|)) && Covers(events, Wanted(offset, count, |file|))
    ensures Streams(events + [ReadCompleted(Some(|file|))], file, offset, count)
  {
    assert (events + [ReadCompleted(Some(|file|))])[..|events|] == events;
  }

  /** finishCanceledRead: a file that cannot be closed is a failure all the same. */
  method FinishCanceledRead(closes: bool) returns (what: Happening)
    ensures what == if closes then WasCanceled else HasFailed
  {
    if !closes { return HasFailed; }
    what := WasCanceled;
  }

  /** streamOpenFile; `closes` is whether the file can be closed. */
  method StreamOpenFile(file: Bytes, offset: int, count: int, luck: nat -> Luck, ending: Ending, closes: bool) returns (events: seq<Happening>)
    requires offset >= 0 && count >= 0
    ensures Streams(events, file, offset, count)
    ensures !closes ==> events[|events| - 1].HasFailed?
    ensures (forall k :: luck(k).Fine?) && ending.Undisturbed? && closes ==> events[|events| - 1].ReadCompleted?
  {
    hide Streams, Chunks;
    NoChunk(file, offset, Wanted(offset, count, |file|));
    events := [];
    var size := |file|;
    var remaining := 0;
    if offset < size { remaining := Min(count, size - offset); }
    var fileOffset := offset;
    ghost var wanted := remaining;
    while remaining > 0
      invariant 0 <= remaining <= wanted && fileOffset == offset + (wanted - remaining)
      invariant wanted == Wanted(offset, count, size)
      invariant Chunks(events, file, offset, wanted) && forall k :: 0 <= k < |events| ==> events[k].ReadOutput?
      invariant remaining > 0 ==> wanted - remaining == |events| * CHUNK
      invariant remaining == 0 ==> Covers(events, wanted)
    {
      var fate := luck(|events|);
      if fate.CanceledBefore? {
        var last := FinishCanceledRead(closes);
        Ends(events, last, file, offset, count);
        return events + [last];
      }
      var length := Min(remaining, CHUNK);
      var data := file[fileOffset..fileOffset + length];
      if fate.CanceledAfter? || fate.CanceledSending? {
        var last := FinishCanceledRead(closes);
        Ends(events, last, file, offset, count);
        return events + [last];
      }
      if fate.ReadFails? {
        Ends(events, HasFailed, file, offset, count);
        return events + [HasFailed];
      }
      OneMoreChunk(events, file, offset, wanted, fileOffset);
      events := events + [ReadOutput(Some(Output(fileOffset, data)))];
      fileOffset := fileOffset + length;
      remaining := remaining - length;
    }
    if ending.CanceledAtEnd? {
      var last := FinishCanceledRead(closes);
      Ends(events, last, file, offset, count);
      return events + [last];
    }
    if ending.StatFailsAgain? || ending.SizeChanged? || !closes {
      Ends(events, HasFailed, file, offset, count);
      return events + [HasFailed];
    }
    if ending.CanceledLate? {
      Ends(events, WasCanceled, file, offset, count);
      return events + [WasCanceled];
    }
    Completes(events, file, offset, count);
    events := events + [ReadCompleted(Some(size))];
  }

  /** streamFile and inspectAndStreamFile. */
  method StreamFile(file: Bytes, offset: int, count: int, opening: Opening, luck: nat -> Luck, ending: Ending, closes: bool) returns (events: seq<Happening>)
    ensures Streams(events, file, offset, count)
    ensures offset >= 0 && count >= 0 && opening.Opens? && (forall k :: luck(k).Fine?) && ending.Undisturbed? && closes ==>
              events[|events| - 1].ReadCompleted?
  {
    if offset < 0 || count < 0 || opening.OpenFails? || opening.StatFails? || opening.NotRegular? {
      Ends([], HasFailed, file, offset, count);
      return [] + [HasFailed];
    }
    if opening.CanceledAtOnce? {
      Ends([], WasCanceled, file, offset, count);
      return [] + [WasCanceled];
    }
    events := StreamOpenFile(file, offset, count, luck, ending, closes);
  }

  // -------------------------------------------------------- driving a shell

  /** Handling the first `k` of the events, as they come for the shell's current phase. */
  function Feed(s: Shell, events: seq<Happening>, k: nat): Handled
    requires LimitInRange(s.op.limit) && k <= |events|
  {
    if k == 0 then Handled(s, Step(None, None))
    else
      match Feed(s, events, k - 1)
      case Error => Error
      case Handled(t, _) =>
        if !LimitInRange(t.op.limit) then Error else Handle(t, Some(Event(s.op.id, s.op.state.phase, events[k - 1])))
  }

  /** A shell that waits for the read of its phase. */
  predicate AwaitsRead(s: Shell, out: Bytes, err: Bytes) {
    ShellFits(s, out, err) && s.op.status.Awaiting? && Reading(s.op.state.phase) && PathComponent(s.op.id) && s.chunks == [] && s.readSize == 0
  }

  /** The request asks for what the window of its phase needs. */
  lemma RequestOfPhase(o: Operation, out: Bytes, err: Bytes)
    requires Fits(o, out, err) && Reading(o.state.phase)
    ensures RequestOf(o).Some?
    ensures var request, file := RequestOf(o).value, FileOf(o.state.phase, out, err);
            && request.offset >= 0 && request.count > 0
            && Wanted(request.offset, request.count, |file|) == Min(request.count, |file| - request.offset)
            && (ReadsTail(o.state.phase) ==> |file| == request.offset + request.count)
  {
    hide HeadWindow, TailWindow;
  }

  /** After `k` chunks the shell has kept them, and waits on. */
  lemma {:induction false} ChunksAreKept(s: Shell, events: seq<Happening>, k: nat, out: Bytes, err: Bytes)
    requires AwaitsRead(s, out, err) && k <= |events| && RequestOf(s.op).Some?
    requires var request, file := RequestOf(s.op).value, FileOf(s.op.state.phase, out, err);
             var wanted := Wanted(request.offset, request.count, |file|);
             Chunks(events, file, request.offset, wanted) && Covers(events, wanted)
    ensures var request, file := RequestOf(s.op).value, FileOf(s.op.state.phase, out, err);
            var h := Feed(s, events, k);
            && h.Handled? && h.shell.op == s.op && ShellFits(h.shell, out, err)
            && h.shell.readSize == Min(k * CHUNK, Wanted(request.offset, request.count, |file|))
  {
    hide Concat, PhaseFits, BoundOutput, ReadLimit, TailReadLimit, HeadWindow, TailWindow, Handle, Chunks, Covers, Honest, ResultFits;
    RequestOfPhase(s.op, out, err);
    if k > 0 {
      ChunksAreKept(s, events, k - 1, out, err);
      var t := Feed(s, events, k - 1).shell;
      var e := Event(s.op.id, s.op.state.phase, events[k - 1]);
      ChunkIsHonest(s, t, events, k, out, err);
      HandleFits(t, Some(e), out, err);
      KeepsChunk(s, t, events, k, out, err);
    }
  }

  lemma ChunkIsHonest(s: Shell, t: Shell, events: seq<Happening>, k: nat, out: Bytes, err: Bytes)
    requires AwaitsRead(s, out, err) && 0 < k <= |events| && RequestOf(s.op).Some? && t.op == s.op
    requires var request, file := RequestOf(s.op).value, FileOf(s.op.state.phase, out, err);
             Chunks(events, file, request.offset, Wanted(request.offset, request.count, |file|))
    ensures Honest(t, Event(s.op.id, s.op.state.phase, events[k - 1]), out, err)
  {
    hide Concat, PhaseFits, BoundOutput, HeadWindow, TailWindow, RequestOf;
  }

  lemma KeepsChunk(s: Shell, t: Shell, events: seq<Happening>, k: nat, out: Bytes, err: Bytes)
    requires AwaitsRead(s, out, err) && 0 < k <= |events| && RequestOf(s.op).Some? && t.op == s.op
    requires var request, file := RequestOf(s.op).value, FileOf(s.op.state.phase, out, err);
             var wanted := Wanted(request.offset, request.count, |file|);
             && Chunks(events, file, request.offset, wanted) && Covers(events, wanted)
             && t.readSize == Min((k - 1) * CHUNK, wanted)
    ensures var request, file := RequestOf(s.op).value, FileOf(s.op.state.phase, out, err);
            var h := Handle(t, Some(Event(s.op.id, s.op.state.phase, events[k - 1])));
            && h.Handled? && h.shell.op == s.op
            && h.shell.readSize == Min(k * CHUNK, Wanted(request.offset, request.count, |file|))
  {
    hide Concat, PhaseFits, BoundOutput, HeadWindow, TailWindow, Handle, RequestOf, ChunksFit, ResultFits;
    RequestOfPhase(s.op, out, err);
    var request, file := RequestOf(s.op).value, FileOf(s.op.state.phase, out, err);
    var wanted := Wanted(request.offset, request.count, |file|);
    assert events[k - 1].ReadOutput?;
    var o := events[k - 1].output.value;
    assert (k - 1) * CHUNK <= (|events| - 1) * CHUNK < wanted;
    assert o.offset == request.offset + t.readSize;
    FitsAccepted(s.op, out, err);
    OutputKept(t, o);
  }

  /** The next output of a read is kept. */
  lemma OutputKept(t: Shell, o: Output)
    requires LimitInRange(t.op.limit) && t.op.status.Awaiting? && Reading(t.op.state.phase) && PathComponent(t.op.id) && RequestOf(t.op).Some?
    requires o.offset == RequestOf(t.op).value.offset + t.readSize && |o.data| <= RequestOf(t.op).value.count - t.readSize
    ensures Handle(t, Some(Event(t.op.id, t.op.state.phase, ReadOutput(Some(o))))) ==
            Handled(t.(chunks := t.chunks + [o.data], readSize := t.readSize + |o.data|), Step(None, None))
  {
    hide RequestOf;
  }

  /** A read that completes never fails the shell: fed a whole stream of what its phase
      asked for, it moves on to a later phase or completes. */
  lemma ReadPhaseSucceeds(s: Shell, events: seq<Happening>, out: Bytes, err: Bytes)
    requires AwaitsRead(s, out, err) && events != [] && events[|events| - 1].ReadCompleted? && RequestOf(s.op).Some?
    requires var request := RequestOf(s.op).value;
             Streams(events, FileOf(s.op.state.phase, out, err), request.offset, request.count)
    ensures var h := Feed(s, events, |events|);
            && h.Handled? && ShellFits(h.shell, out, err)
            && (h.shell.op.status.Completed? || (AwaitsRead(h.shell, out, err) && Rank(h.shell.op.state.phase) < Rank(s.op.state.phase)))
  {
    hide BoundOutput, HeadWindow, TailWindow, Chunks, Covers;
    var n := |events| - 1;
    var chunks := events[..n];
    RequestOfPhase(s.op, out, err);
    ChunksAreKept(s, chunks, n, out, err);
    FeedOfPrefix(s, chunks, events, n);
    WholeRead(s, chunks, out, err);
    var t := Feed(s, events, n).shell;
    var e := Event(s.op.id, s.op.state.phase, events[n]);
    HandleFits(t, Some(e), out, err);
    CompletionMovesOn(t, out, err);
  }

  lemma {:induction false} FeedOfPrefix(s: Shell, a: seq<Happening>, b: seq<Happening>, k: nat)
    requires LimitInRange(s.op.limit) && k <= |a| <= |b| && forall i :: 0 <= i < k ==> a[i] == b[i]
    ensures Feed(s, a, k) == Feed(s, b, k)
  {
    hide Handle;
    if k > 0 { FeedOfPrefix(s, a, b, k - 1); }
  }

  /** The chunks cover all that was asked for. */
  lemma WholeRead(s: Shell, chunks: seq<Happening>, out: Bytes, err: Bytes)
    requires AwaitsRead(s, out, err) && RequestOf(s.op).Some?
    requires var request, file := RequestOf(s.op).value, FileOf(s.op.state.phase, out, err);
             Covers(chunks, Wanted(request.offset, request.count, |file|))
    ensures var request, file := RequestOf(s.op).value, FileOf(s.op.state.phase, out, err);
            Min(|chunks| * CHUNK, Wanted(request.offset, request.count, |file|)) == Min(request.count, |file| - request.offset)
  {
    RequestOfPhase(s.op, out, err);
  }

  /** A whole read is handed on. */
  lemma HandleIsComplete(t: Shell, size: int)
    requires LimitInRange(t.op.limit) && t.op.status.Awaiting? && Reading(t.op.state.phase) && PathComponent(t.op.id) && RequestOf(t.op).Some?
    requires size >= RequestOf(t.op).value.offset && t.readSize == Min(RequestOf(t.op).value.count, size - RequestOf(t.op).value.offset)
    requires ReadsTail(t.op.state.phase) ==> size == RequestOf(t.op).value.offset + RequestOf(t.op).value.count
    ensures Handle(t, Some(Event(t.op.id, t.op.state.phase, ReadCompleted(Some(size))))) ==
            Complete(t.(chunks := [], readSize := 0), Concat(t.chunks), size)
  {
    hide Complete, Concat, RequestOf;
  }

  lemma DispatchReads(s: Shell)
    requires LimitInRange(s.op.limit) && Reading(s.op.state.phase) && RequestOf(s.op).Some?
    ensures var h := DispatchPhase(s);
            h.Handled? && h.shell == s.(op := s.op.(status := Awaiting))
  {
    hide RequestOf;
  }

  lemma FinishCompletes(s: Shell)
    requires LimitInRange(s.op.limit) && s.op.state.pendingExit.Some?
    ensures var h := Finish(s);
            && h.Handled? && h.shell.op.status.Completed? && h.shell.op.id == s.op.id
            && h.shell.chunks == s.chunks && h.shell.readSize == s.readSize
  {
    hide BoundOutput;
  }

  /** What comes after a whole read: a later phase to read, or the end. */
  lemma CompleteMoves(s: Shell, data: Bytes, size: int)
    requires LimitInRange(s.op.limit) && Reading(s.op.state.phase) && s.op.state.pendingExit.Some?
    requires s.chunks == [] && s.readSize == 0
    ensures var h := Complete(s, data, size);
            && h.Handled? && h.shell.chunks == [] && h.shell.readSize == 0 && h.shell.op.id == s.op.id
            && (h.shell.op.status.Completed?
                || (h.shell.op.status.Awaiting? && Reading(h.shell.op.state.phase) && Rank(h.shell.op.state.phase) < Rank(s.op.state.phase)))
  {
    hide BoundOutput, Finish, DispatchPhase, OutPathOf, ErrPathOf;
    var state := s.op.state;
    var needsTail := size > ReadLimit(s.op.limit);
    var headSize := ReadLimit(s.op.limit) - TailReadLimit(s.op.limit);
    var kept := if needsTail && !ReadsTail(state.phase) && |data| > headSize then data[..headSize] else data;
    match state.phase
    case ReadOut =>
      DispatchReads(WithState(s, state.(inlineOut := kept, outSize := size, inlineOutTail := [], phase := if needsTail then ReadOutTail else ReadErr)));
    case ReadOutTail => DispatchReads(WithState(s, state.(inlineOutTail := data, phase := ReadErr)));
    case ReadErr =>
      var next := WithState(s, state.(inlineErr := kept, errSize := size, inlineErrTail := []));
      if needsTail { DispatchReads(WithState(next, next.op.state.(phase := ReadErrTail))); } else { FinishCompletes(next); }
    case ReadErrTail => FinishCompletes(WithState(s, state.(inlineErrTail := data)));
    case _ =>
  }

  /** Completing a whole read is accepted. */
  lemma CompletionMovesOn(t: Shell, out: Bytes, err: Bytes)
    requires ShellFits(t, out, err) && t.op.status.Awaiting? && Reading(t.op.state.phase) && PathComponent(t.op.id) && RequestOf(t.op).Some?
    requires t.readSize == Min(RequestOf(t.op).value.count, |FileOf(t.op.state.phase, out, err)| - RequestOf(t.op).value.offset)
    ensures var size := |FileOf(t.op.state.phase, out, err)|;
            var h := Handle(t, Some(Event(t.op.id, t.op.state.phase, ReadCompleted(Some(size)))));
            && h.Handled?
            && (h.shell.op.status.Completed? || (AwaitsRead(h.shell, out, err) && Rank(h.shell.op.state.phase) < Rank(t.op.state.phase)))
  {
    hide BoundOutput, HeadWindow, TailWindow, Concat, Handle, Complete, ChunksFit, ResultFits, RequestOf, HalfTold, Told, ReadLimit;
    var size := |FileOf(t.op.state.phase, out, err)|;
    RequestOfPhase(t.op, out, err);
    RequestInFile(t.op, out, err);
    HandleFits(t, Some(Event(t.op.id, t.op.state.phase, ReadCompleted(Some(size)))), out, err);
    HandleIsComplete(t, size);
    CompleteMoves(t.(chunks := [], readSize := 0), Concat(t.chunks), size);
  }

  /** Whole streams for one read after the other lead from `s` to `t`. */
  ghost predicate Served(s: Shell, streams: seq<seq<Happening>>, t: Shell, out: Bytes, err: Bytes)
    requires LimitInRange(s.op.limit)
    decreases |streams|
  {
    if streams == [] then t == s
    else
      && RequestOf(s.op).Some? && streams[0] != [] && streams[0][|streams[0]| - 1].ReadCompleted?
      && Streams(streams[0], FileOf(s.op.state.phase, out, err), RequestOf(s.op).value.offset, RequestOf(s.op).value.count)
      && var h := Feed(s, streams[0], |streams[0]|);
      h.Handled? && LimitInRange(h.shell.op.limit) && Served(h.shell, streams[1..], t, out, err)
  }

  /** From any read phase, at most one read for each phase left completes the operation, and
      its result is that of bounding the whole captures. */
  lemma {:induction false} ReadsComplete(s: Shell, streams: seq<seq<Happening>>, t: Shell, out: Bytes, err: Bytes)
    requires AwaitsRead(s, out, err) && Served(s, streams, t, out, err)
    ensures ShellFits(t, out, err)
    ensures |streams| < Rank(s.op.state.phase) ==> t.op.status.Completed? || (AwaitsRead(t, out, err) && RequestOf(t.op).Some?)
    ensures |streams| >= Rank(s.op.state.phase) ==> t.op.status.Completed?
    ensures t.op.status.Completed? ==> ResultFits(t.op, out, err)
    decreases |streams|
  {
    hide BoundOutput, Feed, Streams, ResultFits, PhaseFits, ChunksFit;
    RequestOfPhase(s.op, out, err);
    if streams != [] {
      ReadPhaseSucceeds(s, streams[0], out, err);
      var next := Feed(s, streams[0], |streams[0]|).shell;
      if next.op.status.Completed? {
        CompletedAsksNothing(next, streams[1..], t, out, err);
      } else {
        ReadsComplete(next, streams[1..], t, out, err);
      }
    }
  }

  /** A completed operation reads nothing more. */
  lemma CompletedAsksNothing(s: Shell, streams: seq<seq<Happening>>, t: Shell, out: Bytes, err: Bytes)
    requires ShellFits(s, out, err) && s.op.status.Completed? && Served(s, streams, t, out, err)
    ensures t == s
  {
  }
}
