/**
  The incremental SSE framer (harness/primitives/remote_sse.go): a byte-stream
  automaton over CR, LF and CRLF line endings, proved equal to a batch split of the
  whole stream at blank lines (section 9.2.5 of the WHATWG HTML Standard), however
  the stream is cut into chunks.
 */
module SseFramer {
  import opened Utf8

  const CR: Byte := 13
  const LF: Byte := 10

  datatype Delimiter = Strip | PassThrough

  datatype Frame = Frame(offset: nat, data: Bytes)

  predicate Terminator(b: Byte) { b == CR || b == LF }

  // ---------------------------------------------------- the batch definition

  /** The end of the line that starts at `i`: its terminator, or the end of the stream. */
  function LineEnd(s: Bytes, i: nat): (e: nat)
    requires i <= |s|
    ensures i <= e <= |s|
    ensures forall k :: i <= k < e ==> !Terminator(s[k])
    ensures e < |s| ==> Terminator(s[e])
    decreases |s| - i
  {
    if i == |s| || Terminator(s[i]) then i else LineEnd(s, i + 1)
  }

  /** Where the next line starts: CRLF is one line ending. */
  function AfterLine(s: Bytes, e: nat): (n: nat)
    requires e < |s|
    ensures e < n <= |s|
  {
    if s[e] == CR && e + 1 < |s| && s[e + 1] == LF then e + 2 else e + 1
  }

  datatype Split = Split(frames: seq<Frame>, ok: bool)

  function Prepend(frame: Frame, rest: Split): Split { rest.(frames := [frame] + rest.frames) }

  /** The frames of `s` from the line at `pos` on, for a frame that began at `start` and
      whose last line with data ended at `delim`. A frame's data stops there; its wire
      size is all of it up to and including the blank line. Not `ok` means that some
      frame, complete or not, is larger than `max` on the wire. */
  function SplitFrom(s: Bytes, max: int, start: nat, delim: nat, pos: nat, offset: nat): Split
    requires start <= delim <= pos <= |s|
    decreases |s| - pos
  {
    var e := LineEnd(s, pos);
    if e == |s| then Split([], e == pos || e - start <= max)
    else
      var next := AfterLine(s, e);
      if e > pos then
        if next - start > max then Split([], false) else SplitFrom(s, max, start, e, next, offset)
      else if e + 1 - start > max then Split([], false)
      else
        var frame := Frame(offset, s[start..delim]);
        if next - start > max then Split([frame], false)
        else Prepend(frame, SplitFrom(s, max, next, next, next, offset + (delim - start)))
  }

  /** The whole stream. */
  function SplitStream(s: Bytes, max: int): Split { SplitFrom(s, max, 0, 0, 0, 0) }

  // ------------------------------------------------------------ the automaton

  datatype Framer = Framer(
    max: int, mode: Delimiter, wire: int, emitted: nat, frame: Bytes, delimiterStart: nat,
    lineHasData: bool, afterCR: bool, frameEndedAtCR: bool, endedWire: int)

  function NewFramer(max: int, mode: Delimiter): Framer {
    Framer(max, mode, 0, 0, [], 0, false, false, false, 0)
  }

  predicate Valid(f: Framer) {
    && f.wire == |f.frame| && f.delimiterStart <= |f.frame|
    && (f.frameEndedAtCR ==> f.afterCR && f.frame == [])
  }

  /** One byte: the new state and what it emits, or the size error. */
  datatype Fed = TooLarge | Fed(next: Framer, out: seq<Frame>)

  function Push(f: Framer, b: Byte): Framer { f.(frame := f.frame + [b], wire := f.wire + 1) }

  function Taken(f: Framer): Frame
    requires f.delimiterStart <= |f.frame|
  {
    Frame(f.emitted, if f.mode == Strip then f.frame[..f.delimiterStart] else f.frame)
  }

  function Take(f: Framer): Framer
    requires f.delimiterStart <= |f.frame|
  {
    f.(emitted := f.emitted + |Taken(f).data|, wire := 0, frame := [], delimiterStart := 0)
  }

  function Feed(f: Framer, b: Byte): Fed
    requires Valid(f)
  {
    if f.afterCR && b == LF then
      if f.frameEndedAtCR then
        if f.endedWire >= f.max then TooLarge
        else
          var next := f.(afterCR := false, frameEndedAtCR := false, endedWire := 0);
          if f.mode == Strip then Fed(next, [])
          else Fed(next.(emitted := f.emitted + 1), [Frame(f.emitted, [LF])])
      else if f.wire >= f.max then TooLarge
      else Fed(Push(f, b).(afterCR := false), [])
    else if f.wire >= f.max then TooLarge
    else
      var g := Push(f, b).(afterCR := false, frameEndedAtCR := false, endedWire := if f.afterCR then 0 else f.endedWire);
      if !Terminator(b) then Fed(g.(lineHasData := true), [])
      else
        var h := g.(lineHasData := false, afterCR := b == CR);
        if f.lineHasData then Fed(h.(delimiterStart := |f.frame|), [])
        else if b == CR then Fed(Take(h).(frameEndedAtCR := true, endedWire := h.wire), [Taken(h)])
        else Fed(Take(h), [Taken(h)])
  }

  lemma FeedValid(f: Framer, b: Byte)
    requires Valid(f) && Feed(f, b).Fed?
    ensures Valid(Feed(f, b).next)
  {
  }

  /** Feeding `s[k..]`, up to the first size error. */
  datatype Outcome = Outcome(frames: seq<Frame>, state: Framer, ok: bool)

  function Run(f: Framer, s: Bytes, k: nat): Outcome
    requires Valid(f) && k <= |s|
    decreases |s| - k
  {
    if k == |s| then Outcome([], f, true)
    else
      match Feed(f, s[k])
      case TooLarge => Outcome([], f, false)
      case Fed(next, out) =>
        FeedValid(f, s[k]);
        var rest := Run(next, s, k + 1);
        rest.(frames := out + rest.frames)
  }

  lemma {:induction false} RunValid(f: Framer, s: Bytes, k: nat)
    requires Valid(f) && k <= |s|
    ensures Valid(Run(f, s, k).state)
    decreases |s| - k
  {
    if k < |s| && Feed(f, s[k]).Fed? {
      FeedValid(f, s[k]);
      RunValid(Feed(f, s[k]).next, s, k + 1);
    }
  }

  // ------------------------------------------------- chunks do not matter

  lemma {:induction false} RunShift(f: Framer, a: Bytes, b: Bytes, j: nat)
    requires Valid(f) && j <= |b|
    ensures Run(f, a + b, |a| + j) == Run(f, b, j)
    decreases |b| - j
  {
    if j < |b| && Feed(f, b[j]).Fed? {
      FeedValid(f, b[j]);
      RunShift(Feed(f, b[j]).next, a, b, j + 1);
    }
  }

  /** Feeding two chunks is feeding their concatenation. */
  lemma {:induction false} RunConcat(f: Framer, a: Bytes, b: Bytes, k: nat)
    requires Valid(f) && k <= |a|
    ensures var first := Run(f, a, k);
            Valid(first.state) &&
            Run(f, a + b, k) ==
            if !first.ok then first
            else var second := Run(first.state, b, 0); second.(frames := first.frames + second.frames)
    decreases |a| - k
  {
    hide Feed, Valid;
    RunValid(f, a, k);
    if k == |a| {
      RunShift(f, a, b, 0);
      assert [] + Run(f, b, 0).frames == Run(f, b, 0).frames;
    } else if Feed(f, a[k]).Fed? {
      FeedValid(f, a[k]);
      RunConcat(Feed(f, a[k]).next, a, b, k + 1);
    }
  }

  function Flatten(chunks: seq<Bytes>): Bytes {
    if chunks == [] then [] else chunks[0] + Flatten(chunks[1..])
  }

  /** Feeding chunk after chunk, up to the first size error. */
  function RunChunks(f: Framer, chunks: seq<Bytes>): Outcome
    requires Valid(f)
    decreases |chunks|
  {
    if chunks == [] then Outcome([], f, true)
    else
      RunValid(f, chunks[0], 0);
      var first := Run(f, chunks[0], 0);
      if !first.ok then first
      else var rest := RunChunks(first.state, chunks[1..]); rest.(frames := first.frames + rest.frames)
  }

  lemma {:induction false} ChunksDoNotMatter(f: Framer, chunks: seq<Bytes>)
    requires Valid(f)
    ensures RunChunks(f, chunks) == Run(f, Flatten(chunks), 0)
    decreases |chunks|
  {
    if chunks != [] {
      RunValid(f, chunks[0], 0);
      RunConcat(f, chunks[0], Flatten(chunks[1..]), 0);
      ChunksDoNotMatter(Run(f, chunks[0], 0).state, chunks[1..]);
    }
  }

  // --------------------------------------- the automaton computes the split

  /** The state after bytes that end no line. */
  function Plain(f: Framer, data: Bytes): Framer {
    f.(frame := f.frame + data, wire := f.wire + |data|, lineHasData := true, afterCR := false,
       frameEndedAtCR := false, endedWire := if f.afterCR then 0 else f.endedWire)
  }

  lemma {:induction false} PlainRun(f: Framer, s: Bytes, k: nat, e: nat)
    requires Valid(f) && k < e <= |s| && forall i :: k <= i < e ==> !Terminator(s[i])
    ensures Valid(Plain(f, s[k..e]))
    ensures f.wire + (e - k) <= f.max ==> Run(f, s, k) == Run(Plain(f, s[k..e]), s, e)
    ensures f.wire + (e - k) > f.max ==> Run(f, s, k).frames == [] && !Run(f, s, k).ok
    decreases e - k
  {
    var first := Plain(f, [s[k]]);
    if k + 1 == e {
      assert s[k..e] == [s[k]];
    } else {
      PlainRun(first, s, k + 1, e);
      assert f.frame + [s[k]] + s[k + 1..e] == f.frame + s[k..e];
      assert Plain(first, s[k + 1..e]) == Plain(f, s[k..e]);
    }
    if f.wire < f.max {
      FeedValid(f, s[k]);
      assert Feed(f, s[k]) == Fed(first, []);
      assert Run(f, s, k).frames == [] + Run(first, s, k + 1).frames;
    }
  }

  /** The automaton stands at the start of the line at `pos`. */
  predicate AtLine(f: Framer, s: Bytes, start: nat, delim: nat, pos: nat, offset: nat) {
    && start <= delim <= pos <= |s|
    && Valid(f) && f.emitted == offset
    && f.frame == s[start..pos] && f.delimiterStart == delim - start
    && !f.lineHasData
    && (f.afterCR && pos < |s| ==> s[pos] != LF)
  }

  /** The end of a line with data, from the point just before its terminator. */
  lemma DataLineEnds(f: Framer, s: Bytes, start: nat, e: nat, offset: nat) returns (g: Framer)
    requires start <= e < |s| && Terminator(s[e])
    requires Valid(f) && f.emitted == offset && f.frame == s[start..e]
    requires f.lineHasData && !f.afterCR
    ensures AfterLine(s, e) - start > f.max ==> Run(f, s, e).frames == [] && !Run(f, s, e).ok
    ensures AfterLine(s, e) - start <= f.max ==>
              && AtLine(g, s, start, e, AfterLine(s, e), offset) && g.max == f.max && g.mode == f.mode
              && Run(f, s, e) == Run(g, s, AfterLine(s, e))
  {
    g := f;
    if f.wire < f.max {
      FeedValid(f, s[e]);
      g := Feed(f, s[e]).next;
      assert s[start..e] + [s[e]] == s[start..e + 1];
      assert Run(f, s, e).frames == [] + Run(g, s, e + 1).frames;
      if AfterLine(s, e) == e + 2 && g.wire < g.max {
        FeedValid(g, LF);
        var h := Feed(g, LF).next;
        assert s[start..e + 1] + [s[e + 1]] == s[start..e + 2];
        assert Run(g, s, e + 1).frames == [] + Run(h, s, e + 2).frames;
        g := h;
      }
    }
  }

  lemma RunStep(f: Framer, s: Bytes, k: nat)
    requires Valid(f) && k < |s|
    ensures match Feed(f, s[k])
            case TooLarge => Run(f, s, k) == Outcome([], f, false)
            case Fed(next, out) =>
              Valid(next) && Run(f, s, k) == Run(next, s, k + 1).(frames := out + Run(next, s, k + 1).frames)
  {
    if Feed(f, s[k]).Fed? { FeedValid(f, s[k]); }
  }

  /** A blank line ends the frame. */
  lemma BlankLineEnds(f: Framer, s: Bytes, start: nat, delim: nat, e: nat, offset: nat) returns (g: Framer)
    requires AtLine(f, s, start, delim, e, offset) && f.mode == Strip && e < |s| && Terminator(s[e])
    ensures e + 1 - start > f.max ==> Run(f, s, e).frames == [] && !Run(f, s, e).ok
    ensures var frame := Frame(offset, s[start..delim]);
            var next := AfterLine(s, e);
            && (e + 1 - start <= f.max < next - start ==> Run(f, s, e).frames == [frame] && !Run(f, s, e).ok)
            && (next - start <= f.max ==>
                  && AtLine(g, s, next, next, next, offset + (delim - start)) && g.max == f.max && g.mode == Strip
                  && Run(f, s, e).frames == [frame] + Run(g, s, next).frames && Run(f, s, e).ok == Run(g, s, next).ok)
  {
    hide Run;
    RunStep(f, s, e);
    g := f;
    if f.wire < f.max {
      var frame := Frame(offset, s[start..delim]);
      FeedValid(f, s[e]);
      assert (f.frame + [s[e]])[..f.delimiterStart] == s[start..delim];
      assert Feed(f, s[e]).out == [frame];
      g := Feed(f, s[e]).next;
      if AfterLine(s, e) == e + 2 {
        RunStep(g, s, e + 1);
        if g.endedWire < g.max {
          FeedValid(g, LF);
          var h := Feed(g, LF).next;
          assert [] + Run(h, s, e + 2).frames == Run(h, s, e + 2).frames;
          g := h;
        }
      }
    }
  }

  /** From the start of any line on, the automaton emits the frames of the split, with
      the same offsets, and fails exactly when the split does. */
  lemma {:induction false} RunIsSplit(f: Framer, s: Bytes, start: nat, delim: nat, pos: nat, offset: nat)
    requires AtLine(f, s, start, delim, pos, offset) && f.mode == Strip
    ensures var r, split := Run(f, s, pos), SplitFrom(s, f.max, start, delim, pos, offset);
            r.frames == split.frames && r.ok == split.ok
    decreases |s| - pos
  {
    hide Feed;
    var e := LineEnd(s, pos);
    var g := f;
    if e > pos {
      PlainRun(f, s, pos, e);
      g := Plain(f, s[pos..e]);
      assert s[start..pos] + s[pos..e] == s[start..e];
    }
    if e < |s| {
      var next := AfterLine(s, e);
      if e > pos {
        if e - start <= f.max {
          var h := DataLineEnds(g, s, start, e, offset);
          if next - start <= f.max { RunIsSplit(h, s, start, e, next, offset); }
        }
      } else {
        var h := BlankLineEnds(f, s, start, delim, e, offset);
        if next - start <= f.max { RunIsSplit(h, s, next, next, next, offset + (delim - start)); }
      }
    }
  }

  /** In strip mode the frames, their offsets and the outcome are those of splitting the
      whole stream at blank lines, however it is cut into chunks. */
  lemma StripIsSplit(max: int, chunks: seq<Bytes>)
    ensures var r, split := RunChunks(NewFramer(max, Strip), chunks), SplitStream(Flatten(chunks), max);
            r.frames == split.frames && r.ok == split.ok
  {
    ChunksDoNotMatter(NewFramer(max, Strip), chunks);
    RunIsSplit(NewFramer(max, Strip), Flatten(chunks), 0, 0, 0, 0);
  }

  // ----------------------------------------------------- pass-through mode

  function Joined(frames: seq<Frame>): Bytes {
    if frames == [] then [] else frames[0].data + Joined(frames[1..])
  }

  /** Each frame's offset is the number of bytes emitted before it. */
  predicate Contiguous(frames: seq<Frame>, offset: nat)
    decreases |frames|
  {
    frames == [] || (frames[0].offset == offset && Contiguous(frames[1..], offset + |frames[0].data|))
  }

  lemma {:induction false} JoinedConcat(a: seq<Frame>, b: seq<Frame>)
    ensures Joined(a + b) == Joined(a) + Joined(b)
  {
    if a == [] {
      assert a + b == b;
    } else {
      JoinedConcat(a[1..], b);
      assert (a + b)[1..] == a[1..] + b && (a + b)[0] == a[0];
      assert a[0].data + (Joined(a[1..]) + Joined(b)) == (a[0].data + Joined(a[1..])) + Joined(b);
    }
  }

  lemma {:induction false} ContiguousConcat(a: seq<Frame>, b: seq<Frame>, offset: nat)
    ensures Contiguous(a + b, offset) <==> Contiguous(a, offset) && Contiguous(b, offset + |Joined(a)|)
    decreases |a|
  {
    if a == [] {
      assert a + b == b;
    } else {
      ContiguousConcat(a[1..], b, offset + |a[0].data|);
      assert (a + b)[1..] == a[1..] + b;
    }
  }

  /** What one byte emits and keeps is what it was given. */
  lemma FeedConserves(f: Framer, b: Byte)
    requires Valid(f) && f.mode == PassThrough && Feed(f, b).Fed?
    ensures var r := Feed(f, b);
            && r.next.mode == PassThrough
            && Joined(r.out) + r.next.frame == f.frame + [b]
            && Contiguous(r.out, f.emitted) && r.next.emitted == f.emitted + |Joined(r.out)|
  {
    var r := Feed(f, b);
    if r.out != [] {
      assert r.out[1..] == [];
      assert Joined(r.out) == r.out[0].data;
    }
  }

  /** All emitted data and the rest still held are the bytes fed, in order; offsets
      count the bytes emitted. */
  lemma {:induction false} PassThroughConserves(f: Framer, s: Bytes, k: nat)
    requires Valid(f) && f.mode == PassThrough && k <= |s|
    ensures var r := Run(f, s, k);
            && Contiguous(r.frames, f.emitted)
            && r.state.emitted == f.emitted + |Joined(r.frames)|
            && r.state.mode == PassThrough
            && (r.ok ==> Joined(r.frames) + r.state.frame == f.frame + s[k..])
    decreases |s| - k
  {
    hide Feed, Valid;
    if k == |s| {
      assert f.frame + s[k..] == f.frame;
    } else if Feed(f, s[k]).Fed? {
      var next, out := Feed(f, s[k]).next, Feed(f, s[k]).out;
      FeedValid(f, s[k]);
      FeedConserves(f, s[k]);
      PassThroughConserves(next, s, k + 1);
      var rest := Run(next, s, k + 1);
      JoinedConcat(out, rest.frames);
      ContiguousConcat(out, rest.frames, f.emitted);
      if rest.ok {
        calc {
          (Joined(out) + Joined(rest.frames)) + rest.state.frame;
          Joined(out) + (Joined(rest.frames) + rest.state.frame);
          Joined(out) + (next.frame + s[k + 1..]);
          (Joined(out) + next.frame) + s[k + 1..];
          (f.frame + [s[k]]) + s[k + 1..];
          { assert [s[k]] + s[k + 1..] == s[k..]; }
          f.frame + s[k..];
        }
      }
    }
  }

  /** The two modes differ in what they emit, not in when they fail. */
  predicate SameSizes(f: Framer, g: Framer) {
    && f.max == g.max && f.wire == g.wire && f.lineHasData == g.lineHasData && f.afterCR == g.afterCR
    && f.frameEndedAtCR == g.frameEndedAtCR && f.endedWire == g.endedWire
  }

  lemma {:induction false} ModesFailTogether(f: Framer, g: Framer, s: Bytes, k: nat)
    requires Valid(f) && Valid(g) && SameSizes(f, g) && k <= |s|
    ensures Run(f, s, k).ok == Run(g, s, k).ok
    decreases |s| - k
  {
    if k < |s| && Feed(f, s[k]).Fed? {
      FeedValid(f, s[k]);
      FeedValid(g, s[k]);
      ModesFailTogether(Feed(f, s[k]).next, Feed(g, s[k]).next, s, k + 1);
    }
  }

  /** The frames of `s` as they are on the wire, from the line at `pos` on, for a frame that
      began at `start`: each with its blank line, at its place in the stream. */
  function WireFrom(s: Bytes, start: nat, pos: nat): seq<Frame>
    requires start <= pos <= |s|
    decreases |s| - pos
  {
    var e := LineEnd(s, pos);
    if e == |s| then []
    else
      var next := AfterLine(s, e);
      if e > pos then WireFrom(s, start, next) else [Frame(start, s[start..next])] + WireFrom(s, next, next)
  }

  /** A line feed by itself that completes the carriage return the frame before it ended with. */
  predicate Completes(before: Frame, frame: Frame) {
    frame.data == [LF] && before.data != [] && before.data[|before.data| - 1] == CR
  }

  /** A line feed that was emitted after its carriage return is put back to it. */
  function Merged(frames: seq<Frame>): seq<Frame> {
    if frames == [] then []
    else if |frames| > 1 && Completes(frames[0], frames[1])
    then [Frame(frames[0].offset, frames[0].data + [LF])] + Merged(frames[2..])
    else [frames[0]] + Merged(frames[1..])
  }

  /** A blank line ends the frame and emits its wire bytes, at once or in two. */
  lemma BlankLinePasses(f: Framer, s: Bytes, start: nat, delim: nat, e: nat) returns (g: Framer, out: seq<Frame>)
    requires AtLine(f, s, start, delim, e, start) && f.mode == PassThrough && e < |s| && Terminator(s[e]) && Run(f, s, e).ok
    ensures var next := AfterLine(s, e);
            && AtLine(g, s, next, next, next, next) && g.mode == PassThrough && g.max == f.max
            && Run(g, s, next).ok && Run(f, s, e).frames == out + Run(g, s, next).frames
            && out == if next == e + 2 then [Frame(start, s[start..e + 1]), Frame(e + 1, [LF])] else [Frame(start, s[start..next])]
  {
    hide Run;
    RunStep(f, s, e);
    FeedValid(f, s[e]);
    assert s[start..e] + [s[e]] == s[start..e + 1];
    g, out := Feed(f, s[e]).next, Feed(f, s[e]).out;
    if AfterLine(s, e) == e + 2 {
      RunStep(g, s, e + 1);
      FeedValid(g, LF);
      var h := Feed(g, LF).next;
      assert out + (Feed(g, LF).out + Run(h, s, e + 2).frames) == (out + Feed(g, LF).out) + Run(h, s, e + 2).frames;
      g, out := h, out + Feed(g, LF).out;
    }
  }

  /** What comes after a whole frame does not join it. */
  lemma MergedAfter(out: seq<Frame>, rest: seq<Frame>, s: Bytes, start: nat, e: nat)
    requires start <= e < |s| && Terminator(s[e])
    requires var next := AfterLine(s, e);
             && out == (if next == e + 2 then [Frame(start, s[start..e + 1]), Frame(e + 1, [LF])] else [Frame(start, s[start..next])])
             && Merged(rest) == WireFrom(s, next, next)
    ensures Merged(out + rest) == [Frame(start, s[start..AfterLine(s, e)])] + Merged(rest)
  {
    var next := AfterLine(s, e);
    if next == e + 2 {
      assert s[start..e + 1] + [LF] == s[start..next];
      assert (out + rest)[2..] == rest;
    } else {
      assert (out + rest)[1..] == rest;
      if rest != [] && rest[0].data == [LF] {
        assert Merged(rest)[0].data[0] == LF;
        FirstOfWire(s, next, next);
      }
    }
  }

  lemma {:induction false} FirstOfWire(s: Bytes, start: nat, pos: nat)
    requires start <= pos <= |s|
    ensures WireFrom(s, start, pos) != [] ==> start < |s| && WireFrom(s, start, pos)[0].data != [] && WireFrom(s, start, pos)[0].data[0] == s[start]
    decreases |s| - pos
  {
    var e := LineEnd(s, pos);
    if pos < e < |s| { FirstOfWire(s, start, AfterLine(s, e)); }
  }

  /** In pass-through mode the automaton emits the frames of the split as they are on the wire,
      but for a line feed that comes by itself. */
  lemma {:induction false} RunPassesFrames(f: Framer, s: Bytes, start: nat, delim: nat, pos: nat)
    requires AtLine(f, s, start, delim, pos, start) && f.mode == PassThrough && Run(f, s, pos).ok
    ensures Merged(Run(f, s, pos).frames) == WireFrom(s, start, pos)
    decreases |s| - pos
  {
    hide Feed, Merged;
    var e := LineEnd(s, pos);
    var g := f;
    if e > pos {
      PlainRun(f, s, pos, e);
      g := Plain(f, s[pos..e]);
      assert s[start..pos] + s[pos..e] == s[start..e];
    }
    if e == |s| {
      NothingMerged();
    } else if e > pos {
      var h := DataLineEnds(g, s, start, e, start);
      RunPassesFrames(h, s, start, e, AfterLine(s, e));
    } else {
      var h, out := BlankLinePasses(f, s, start, delim, e);
      var next := AfterLine(s, e);
      RunPassesFrames(h, s, next, next, next);
      MergedAfter(out, Run(h, s, next).frames, s, start, e);
    }
  }

  lemma NothingMerged()
    ensures Merged([]) == []
  {
  }

  /** finish: in pass-through mode the rest becomes a last frame. */
  function Finish(f: Framer): seq<Frame> {
    if f.frame == [] || f.mode == Strip then [] else [Frame(f.emitted, f.frame)]
  }

  /** In pass-through mode a stream without error comes out byte for byte, whatever the
      chunks; its frames are those of the split as they are on the wire, each with its blank
      line; it fails exactly when some frame of the split is too large. */
  lemma PassThroughIsIdentity(max: int, chunks: seq<Bytes>)
    ensures var r := RunChunks(NewFramer(max, PassThrough), chunks);
            var all := r.frames + Finish(r.state);
            && r.ok == SplitStream(Flatten(chunks), max).ok
            && Contiguous(all, 0)
            && (r.ok ==> Joined(all) == Flatten(chunks) && Merged(r.frames) == WireFrom(Flatten(chunks), 0, 0))
  {
    hide Run, RunChunks, SplitFrom, Flatten, WireFrom, Merged;
    var f, s := NewFramer(max, PassThrough), Flatten(chunks);
    ChunksDoNotMatter(f, chunks);
    PassThroughConserves(f, s, 0);
    ModesFailTogether(f, NewFramer(max, Strip), s, 0);
    RunIsSplit(NewFramer(max, Strip), s, 0, 0, 0, 0);
    if Run(f, s, 0).ok { RunPassesFrames(f, s, 0, 0, 0); }
    var r := Run(f, s, 0);
    var last := Finish(r.state);
    JoinedConcat(r.frames, last);
    ContiguousConcat(r.frames, last, 0);
    assert f.frame + s[0..] == s;
    if last != [] { assert last[1..] == []; }
    assert Joined(last) == if r.state.mode == Strip then [] else r.state.frame;
  }

  // -------------------------------------------------------------- the object

  /** How the frames of one call stand to those of the automaton: equal in strip mode;
      in pass-through mode a line feed after an ended frame may join the frame before. */
  predicate Emits(mode: Delimiter, frames: seq<Frame>, spec: seq<Frame>, offset: nat) {
    if mode == Strip then frames == spec
    else Joined(frames) == Joined(spec) && Contiguous(frames, offset)
  }

  lemma EmitsOne(mode: Delimiter, frames: seq<Frame>, spec: seq<Frame>, offset: nat, frame: Frame)
    requires Emits(mode, frames, spec, offset)
    requires mode == PassThrough ==> frame.offset == offset + |Joined(frames)|
    ensures Emits(mode, frames + [frame], spec + [frame], offset)
    ensures Joined(frames + [frame]) == Joined(frames) + frame.data
  {
    JoinedConcat(frames, [frame]);
    JoinedConcat(spec, [frame]);
    ContiguousConcat(frames, [frame], offset);
    assert [frame][1..] == [];
    assert Joined([frame]) == frame.data;
  }

  lemma OneFrame(frame: Frame, offset: nat)
    ensures Joined([frame]) == frame.data && (Contiguous([frame], offset) <==> frame.offset == offset)
  {
    assert [frame][1..] == [];
  }

  /** Appending to the last frame emits the same bytes as one more frame. */
  lemma EmitsInLast(frames: seq<Frame>, spec: seq<Frame>, offset: nat, frame: Frame)
    requires frames != [] && Emits(PassThrough, frames, spec, offset)
    ensures var n := |frames| - 1;
            var last := Frame(frames[n].offset, frames[n].data + frame.data);
            && Emits(PassThrough, frames[n := last], spec + [frame], offset)
            && Joined(frames[n := last]) == Joined(frames) + frame.data
  {
    hide Joined, Contiguous;
    var n := |frames| - 1;
    var last := Frame(frames[n].offset, frames[n].data + frame.data);
    JoinedConcat(spec, [frame]);
    JoinedConcat(frames[..n], [frames[n]]);
    JoinedConcat(frames[..n], [last]);
    ContiguousConcat(frames[..n], [frames[n]], offset);
    ContiguousConcat(frames[..n], [last], offset);
    assert frames == frames[..n] + [frames[n]];
    assert frames[n := last] == frames[..n] + [last];
    OneFrame(frame, 0);
    OneFrame(frames[n], offset + |Joined(frames[..n])|);
    OneFrame(last, offset + |Joined(frames[..n])|);
    assert Joined(frames[..n]) + (frames[n].data + frame.data) == (Joined(frames[..n]) + frames[n].data) + frame.data;
  }

  /** `s` has been read up to `i`: `spec` has been emitted and `f` is the state. */
  predicate Reached(start: Framer, s: Bytes, spec: seq<Frame>, f: Framer, i: nat) {
    && Valid(start) && Valid(f) && i <= |s|
    && var whole, rest := Run(start, s, 0), Run(f, s, i);
       whole.frames == spec + rest.frames && whole.ok == rest.ok && whole.state == rest.state
  }

  lemma ReachedFeed(start: Framer, s: Bytes, spec: seq<Frame>, f: Framer, i: nat)
    requires Reached(start, s, spec, f, i) && i < |s|
    ensures match Feed(f, s[i])
            case TooLarge => Run(start, s, 0).frames == spec && !Run(start, s, 0).ok
            case Fed(next, out) => Reached(start, s, spec + out, next, i + 1)
  {
    hide Feed, Valid;
    if Feed(f, s[i]).Fed? {
      FeedValid(f, s[i]);
      var next, out := Feed(f, s[i]).next, Feed(f, s[i]).out;
      assert spec + (out + Run(next, s, i + 1).frames) == (spec + out) + Run(next, s, i + 1).frames;
    }
  }

  lemma ReachedPlain(start: Framer, s: Bytes, spec: seq<Frame>, f: Framer, i: nat, e: nat)
    requires Reached(start, s, spec, f, i) && i < e <= |s| && forall k :: i <= k < e ==> !Terminator(s[k])
    ensures f.wire + (e - i) <= f.max ==> Reached(start, s, spec, Plain(f, s[i..e]), e)
    ensures f.wire + (e - i) > f.max ==> Run(start, s, 0).frames == spec && !Run(start, s, 0).ok
  {
    hide Feed;
    PlainRun(f, s, i, e);
  }

  /** The state before the terminator of a line whose bytes up to there are `data`. */
  function BeforeEnd(f: Framer, data: Bytes): Framer { if data == [] then f else Plain(f, data) }

  lemma ReachedSegment(start: Framer, s: Bytes, spec: seq<Frame>, f: Framer, i: nat, e: nat)
    requires Reached(start, s, spec, f, i) && i <= e < |s| && forall k :: i <= k < e ==> !Terminator(s[k])
    requires f.afterCR ==> s[i] != LF
    ensures f.wire + (e + 1 - i) > f.max ==> Run(start, s, 0).frames == spec && !Run(start, s, 0).ok
    ensures f.wire + (e + 1 - i) <= f.max ==>
              var g := BeforeEnd(f, s[i..e]);
              && Valid(g) && g.wire < g.max && Push(g, s[e]).frame == f.frame + s[i..e + 1]
              && Feed(g, s[e]).Fed? && Reached(start, s, spec + Feed(g, s[e]).out, Feed(g, s[e]).next, e + 1)
  {
    hide Run;
    assert s[i..e + 1] == s[i..e] + [s[e]];
    assert f.frame + (s[i..e] + [s[e]]) == (f.frame + s[i..e]) + [s[e]];
    if i < e { ReachedPlain(start, s, spec, f, i, e); }
    var g := BeforeEnd(f, s[i..e]);
    if i == e || g.wire <= g.max { ReachedFeed(start, s, spec, g, e); }
  }

  class RemoteSSEFramer {
    const maximumFrameSize: int
    const frameDelimiter: Delimiter
    var frameWireSize: int
    var emittedOffset: nat
    var frame: Bytes
    var delimiterStart: nat
    var lineHasData: bool
    var afterCR: bool
    var frameEndedAtCR: bool
    var endedFrameWireSize: int

    ghost function View(): Framer
      reads this
    {
      Framer(maximumFrameSize, frameDelimiter, frameWireSize, emittedOffset, frame, delimiterStart,
             lineHasData, afterCR, frameEndedAtCR, endedFrameWireSize)
    }

    constructor (max: int, mode: Delimiter)
      ensures View() == NewFramer(max, mode)
    {
      maximumFrameSize, frameDelimiter := max, mode;
      frameWireSize, emittedOffset, frame, delimiterStart := 0, 0, [], 0;
      lineHasData, afterCR, frameEndedAtCR, endedFrameWireSize := false, false, false, 0;
    }

    method AppendFrameBytes(encoded: Bytes) returns (ok: bool)
      modifies this
      ensures ok <==> |encoded| <= old(maximumFrameSize - frameWireSize)
      ensures View() == if ok then old(View()).(frame := old(frame) + encoded, wire := old(frameWireSize) + |encoded|)
                        else old(View())
    {
      var size := |encoded|;
      if size > maximumFrameSize - frameWireSize { return false; }
      frame := frame + encoded;
      frameWireSize := frameWireSize + size;
      ok := true;
    }

    method TakeFrame(start: nat) returns (r: Frame)
      requires start <= |frame|
      modifies this
      ensures r == Frame(old(emittedOffset), if frameDelimiter == Strip then old(frame)[..start] else old(frame))
      ensures View() == old(View()).(emitted := old(emittedOffset) + |r.data|, wire := 0, frame := [], delimiterStart := 0)
    {
      var data := frame;
      if frameDelimiter == Strip { data := data[..start]; }
      r := Frame(emittedOffset, data);
      emittedOffset := emittedOffset + |data|;
      frameWireSize := 0;
      frame := [];
      delimiterStart := 0;
    }

    method FinishStream() returns (frames: seq<Frame>)
      requires Valid(View())
      modifies this
      ensures frames == Finish(old(View()))
      ensures View() == old(View()).(frame := [], wire := 0, delimiterStart := 0, afterCR := false, frameEndedAtCR := false,
                                     endedWire := 0, emitted := old(emittedOffset) + |Joined(frames)|)
    {
      afterCR := false;
      frameEndedAtCR := false;
      endedFrameWireSize := 0;
      if |frame| == 0 || frameDelimiter == Strip {
        frameWireSize := 0;
        frame := [];
        delimiterStart := 0;
        return [];
      }
      var last := TakeFrame(|frame|);
      frames := [last];
      assert Joined(frames) == last.data + Joined([]);
    }

    /** bytes.IndexAny(encoded, "\r\n") from position `i`. */
    method LineEnding(encoded: Bytes, i: nat) returns (e: nat)
      requires i <= |encoded|
      ensures e == LineEnd(encoded, i)
    {
      e := i;
      while e < |encoded| && !Terminator(encoded[e])
        invariant i <= e <= |encoded| && LineEnd(encoded, i) == LineEnd(encoded, e)
      {
        e := e + 1;
      }
    }

    /** A line feed after a carriage return: it belongs to the line ending already seen. */
    method AppendLF(frames: seq<Frame>, ghost spec: seq<Frame>, ghost offset: nat) returns (r: seq<Frame>, ok: bool)
      requires Valid(View()) && afterCR
      requires Emits(frameDelimiter, frames, spec, offset)
      requires frameDelimiter == PassThrough ==> emittedOffset == offset + |Joined(frames)|
      modifies this
      ensures ok <==> Feed(old(View()), LF).Fed?
      ensures !ok ==> r == frames
      ensures ok ==>
                && View() == Feed(old(View()), LF).next
                && Emits(frameDelimiter, r, spec + Feed(old(View()), LF).out, offset)
                && (frameDelimiter == PassThrough ==> emittedOffset == offset + |Joined(r)|)
    {
      hide Joined, Contiguous;
      r := frames;
      if frameEndedAtCR {
        if endedFrameWireSize >= maximumFrameSize { return r, false; }
        if frameDelimiter == PassThrough {
          ghost var one := Frame(emittedOffset, [LF]);
          if |frames| != 0 {
            EmitsInLast(frames, spec, offset, one);
            var last := frames[|frames| - 1];
            r := frames[|frames| - 1 := Frame(last.offset, last.data + [LF])];
          } else {
            EmitsOne(PassThrough, frames, spec, offset, one);
            r := [Frame(emittedOffset, [LF])];
            assert frames + [one] == r;
          }
          emittedOffset := emittedOffset + 1;
        } else {
          assert spec + [] == spec;
        }
        afterCR := false;
        frameEndedAtCR := false;
        endedFrameWireSize := 0;
        return r, true;
      }
      assert spec + [] == spec;
      ok := AppendFrameBytes([LF]);
      if ok { afterCR := false; }
    }

    /** The line terminator that `frame` now ends with: a blank line ends the frame. */
    method EndLine(character: Byte, ghost before: Framer) returns (ended: seq<Frame>)
      requires Valid(before) && Terminator(character) && before.wire < before.max
      requires before.afterCR ==> character != LF
      requires View() == Push(before, character).(afterCR := false, frameEndedAtCR := false,
                           endedWire := if before.afterCR then 0 else before.endedWire)
      modifies this
      ensures Feed(before, character) == Fed(View(), ended)
      ensures |ended| <= 1
      ensures ended != [] ==> ended[0].offset == old(emittedOffset) && emittedOffset == old(emittedOffset) + |ended[0].data|
      ensures ended == [] ==> emittedOffset == old(emittedOffset)
    {
      ended := [];
      if character == CR {
        frameEndedAtCR := !lineHasData;
        if lineHasData { delimiterStart := |frame| - 1; }
        lineHasData := false;
        afterCR := true;
        if frameEndedAtCR {
          endedFrameWireSize := frameWireSize;
          var taken := TakeFrame(delimiterStart);
          ended := [taken];
        }
      } else {
        if lineHasData {
          delimiterStart := |frame| - 1;
        } else {
          var taken := TakeFrame(delimiterStart);
          ended := [taken];
        }
        lineHasData := false;
      }
    }

    /** One line segment: the bytes `encoded[i..]` up to and including the next line
        terminator, or all of them. */
    method AppendSegment(encoded: Bytes, i: nat, frames: seq<Frame>, ghost start: Framer, ghost spec: seq<Frame>, ghost offset: nat)
      returns (next: nat, r: seq<Frame>, ok: bool, ghost spec': seq<Frame>)
      requires Valid(View()) && Reached(start, encoded, spec, View(), i) && i < |encoded|
      requires afterCR ==> encoded[i] != LF
      requires Emits(frameDelimiter, frames, spec, offset)
      requires frameDelimiter == PassThrough ==> emittedOffset == offset + |Joined(frames)|
      modifies this
      ensures !ok ==> r == frames && Run(start, encoded, 0).frames == spec && !Run(start, encoded, 0).ok
      ensures ok ==>
                && i < next <= |encoded|
                && Reached(start, encoded, spec', View(), next)
                && Emits(frameDelimiter, r, spec', offset)
                && (frameDelimiter == PassThrough ==> emittedOffset == offset + |Joined(r)|)
    {
      hide Joined, Contiguous, Run, Reached, Emits;
      r, spec' := frames, spec;
      ghost var f := View();
      if afterCR {
        afterCR := false;
        frameEndedAtCR := false;
        endedFrameWireSize := 0;
      }
      var lineEnding := LineEnding(encoded, i);
      next := lineEnding;
      if lineEnding == |encoded| {
        ReachedPlain(start, encoded, spec, f, i, lineEnding);
        ok := AppendFrameBytes(encoded[i..]);
        assert encoded[i..] == encoded[i..lineEnding];
        if ok { lineHasData := true; }
        return;
      }
      ReachedSegment(start, encoded, spec, f, i, lineEnding);
      ok := AppendFrameBytes(encoded[i..lineEnding + 1]);
      if !ok { return; }
      if lineEnding != i { lineHasData := true; }
      var ended := EndLine(encoded[lineEnding], BeforeEnd(f, encoded[i..lineEnding]));
      next, r, spec' := lineEnding + 1, frames + ended, spec + ended;
      if ended == [] {
        assert frames + [] == frames && spec + [] == spec;
      } else {
        assert ended == [ended[0]];
        EmitsOne(frameDelimiter, frames, spec, offset, ended[0]);
      }
    }

    /** append: one chunk. The frames are those of the automaton, up to the first size
        error; afterwards the automaton's state is the object's. */
    method Append(encoded: Bytes) returns (frames: seq<Frame>, ok: bool)
      requires Valid(View())
      modifies this
      ensures var r := Run(old(View()), encoded, 0);
              && ok == r.ok
              && Emits(frameDelimiter, frames, r.frames, old(emittedOffset))
              && (ok ==> View() == r.state && Valid(View()))
    {
      frames, ok := [], true;
      ghost var start, spec := View(), [];
      ghost var offset := emittedOffset;
      RunValid(start, encoded, 0);
      assert [] + Run(start, encoded, 0).frames == Run(start, encoded, 0).frames;
      var i := 0;
      while i < |encoded|
        invariant i <= |encoded| && Reached(start, encoded, spec, View(), i)
        invariant Emits(frameDelimiter, frames, spec, offset)
        invariant frameDelimiter == PassThrough ==> emittedOffset == offset + |Joined(frames)|
      {
        if afterCR && encoded[i] == LF {
          ReachedFeed(start, encoded, spec, View(), i);
          ghost var before := View();
          frames, ok := AppendLF(frames, spec, offset);
          if !ok { return; }
          spec := spec + Feed(before, LF).out;
          i := i + 1;
          continue;
        }
        var next, more;
        ghost var emitted;
        next, more, ok, emitted := AppendSegment(encoded, i, frames, start, spec, offset);
        frames := more;
        if !ok { return; }
        spec, i := emitted, next;
      }
      assert spec + [] == spec;
    }
  }
}
