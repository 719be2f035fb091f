/**
  Bounding command output (harness/operation/output.go), and the two windows of a
  capture file from which the shell operation computes it (harness/operation/shell.go).
 */
module BoundedOutput {
  import opened Utf8

  /** `Panic` is the empty tail whose head is not the whole output. `Truncated` stands
      for the text `head ++ "...<skipped> bytes truncated" ++ ("; complete output in "
      ++ path, when there is one) ++ "..." ++ tail`. */
  datatype Bounded =
    | Panic
    | Whole(text: Bytes)
    | Truncated(head: Bytes, skipped: int, path: Bytes, tail: Bytes)

  /** The first `limit` runes, and the last. */
  function HeadOf(text: Bytes, limit: nat): Bytes { text[..Pos(text, limit)] }
  function TailOf(text: Bytes, limit: nat): Bytes { text[BackPos(text, limit)..] }

  /** Which bytes boundOutput keeps. */
  function Keep(head: Bytes, tail: Bytes, fullSize: int, limit: int, path: Bytes): Bounded {
    var limit := if limit < 0 then 0 else limit;
    if tail == [] && fullSize != |head| then Panic
    else if tail == [] && RuneCount(head) <= limit then Whole(head)
    else
      var first := HeadOf(head, limit / 2);
      var last := TailOf(if tail == [] then head else tail, limit - limit / 2);
      Truncated(first, fullSize - (|first| + |last|), path, last)
  }

  /** What it makes of them: valid UTF-8. */
  function Clean(b: Bounded): Bounded {
    match b
    case Panic => Panic
    case Whole(text) => Whole(Sanitize(text, 0))
    case Truncated(head, skipped, path, tail) => Truncated(Sanitize(head, 0), skipped, path, Sanitize(tail, 0))
  }

  function BoundOutput(head: Bytes, tail: Bytes, fullSize: int, limit: int, path: Bytes): Bounded {
    Clean(Keep(head, tail, fullSize, limit, path))
  }

  // --------------------------------------------------------------- the loops

  lemma {:induction false} PosStays(s: Bytes, m: nat, n: nat)
    requires m <= n && Pos(s, m) == |s|
    ensures Pos(s, n) == |s|
  {
    if m < n { PosStays(s, m, n - 1); }
  }

  lemma {:induction false} BackPosStays(s: Bytes, m: nat, n: nat)
    requires m <= n && BackPos(s, m) == 0
    ensures BackPos(s, n) == 0
  {
    if m < n { BackPosStays(s, m, n - 1); }
  }

  /** outputPart. */
  method OutputPart(text: Bytes, limit: nat, tail: bool) returns (part: Bytes, size: nat)
    ensures part == Sanitize(if tail then TailOf(text, limit) else HeadOf(text, limit), 0)
    ensures size == |if tail then TailOf(text, limit) else HeadOf(text, limit)|
  {
    var remaining: nat := limit;
    if tail {
      var start: nat := |text|;
      while start > 0 && remaining > 0
        invariant remaining <= limit && start <= |text| && start == BackPos(text, limit - remaining)
      {
        var last := DecodeLastRune(text, start);
        start := start - last;
        remaining := remaining - 1;
      }
      if start == 0 { BackPosStays(text, limit - remaining, limit); }
      return Sanitize(text[start..], 0), |text| - start;
    }
    var end: nat := 0;
    while end < |text| && remaining > 0
      invariant remaining <= limit && end <= |text| && end == Pos(text, limit - remaining)
    {
      end := end + RuneSize(text, end);
      remaining := remaining - 1;
    }
    if end == |text| { PosStays(text, limit - remaining, limit); }
    part, size := Sanitize(text[..end], 0), end;
  }

  /** boundOutput. */
  method BoundOutputOf(head: Bytes, tail: Bytes, fullSize: int, limit: int, path: Bytes) returns (r: Bounded)
    ensures r == BoundOutput(head, tail, fullSize, limit, path)
  {
    var limit := if limit < 0 then 0 else limit;
    var last := tail;
    if last == [] {
      if fullSize != |head| { return Panic; }
      if RuneCount(head) <= limit { return Whole(Sanitize(head, 0)); }
      last := head;
    }
    var headPart, headSize := OutputPart(head, limit / 2, false);
    var tailPart, tailSize := OutputPart(last, limit - limit / 2, true);
    var skipped := fullSize - (headSize + tailSize);
    r := Truncated(headPart, skipped, path, tailPart);
  }

  // ------------------------------------------ what the bounded text consists of

  /** Output of at most `limit` runes is kept whole; of longer output exactly the first
      `limit/2` and the last `limit - limit/2` runes are kept, they never overlap, and
      the marker counts exactly the bytes between them. */
  lemma BoundedMeaning(text: Bytes, limit: nat, path: Bytes)
    ensures var kept := Keep(text, [], |text|, limit, path);
            var count := RuneCount(text);
            if count <= limit then kept == Whole(text)
            else
              var h, t := Pos(text, limit / 2), Pos(text, count - (limit - limit / 2));
              h < t && kept == Truncated(text[..h], t - h, path, text[t..])
  {
    hide RuneCount, Pos, BackPos;
    var count := RuneCount(text);
    if count > limit {
      BackwardAgrees(text, limit - limit / 2);
      PosReachesEnd(text, limit / 2);
      PosMonotone(text, limit / 2, count - (limit - limit / 2));
    }
  }

  // ------------------------------------------------------------- the windows

  /** shellReadLimit and shellTailReadLimit. */
  function ReadLimit(limit: nat): nat { limit * 4 }
  function TailReadLimit(limit: nat): nat { (limit - limit / 2) * 4 }

  /** Go integer division of a non-negative limit. */
  function HeadWindow(capture: Bytes, limit: nat): Bytes
    requires |capture| > ReadLimit(limit)
  {
    capture[..ReadLimit(limit)][..ReadLimit(limit) - TailReadLimit(limit)]
  }

  function TailWindow(capture: Bytes, limit: nat): Bytes
    requires |capture| > ReadLimit(limit)
  {
    capture[|capture| - TailReadLimit(limit)..]
  }

  lemma {:induction false} PosWithin(s: Bytes, n: nat)
    ensures Pos(s, n) <= 4 * n
  {
    if n > 0 { PosWithin(s, n - 1); }
  }

  /** A prefix long enough for `n` runes is cut like the whole. */
  lemma {:induction false} PrefixCut(s: Bytes, m: nat, n: nat)
    requires 4 * n <= m <= |s|
    ensures Pos(s[..m], n) == Pos(s, n)
  {
    if n > 0 {
      PrefixCut(s, m, n - 1);
      PosWithin(s, n - 1);
      SameRuneSize(s, m, Pos(s, n - 1));
    }
  }

  lemma SameRuneSize(s: Bytes, m: nat, p: nat)
    requires p + 4 <= m <= |s|
    ensures RuneSize(s[..m], p) == RuneSize(s, p)
  {
    var w := s[..m];
    assert w[p] == s[p] && w[p + 1] == s[p + 1] && w[p + 2] == s[p + 2] && w[p + 3] == s[p + 3];
  }

  lemma {:induction false} BackPosWithin(s: Bytes, n: nat)
    ensures BackPos(s, n) + 4 * n >= |s|
  {
    if n > 0 { BackPosWithin(s, n - 1); }
  }

  /** A suffix long enough for `n` runes is cut like the whole. */
  lemma {:induction false} SuffixCut(s: Bytes, m: nat, n: nat)
    requires 4 * n <= m <= |s|
    ensures BackPos(s[|s| - m..], n) + (|s| - m) == BackPos(s, n)
  {
    if n > 0 {
      SuffixCut(s, m, n - 1);
      BackPosWithin(s, n - 1);
      SameLastSize(s, |s| - m, BackPos(s, n - 1));
    }
  }

  lemma SameLastSize(s: Bytes, from: nat, p: nat)
    requires from + 4 <= p <= |s|
    ensures LastSize(s[from..], p - from) == LastSize(s, p)
  {
    var w, q := s[from..], p - from;
    assert w[q - 1] == s[p - 1] && w[q - 2] == s[p - 2] && w[q - 3] == s[p - 3] && w[q - 4] == s[p - 4];
  }

  lemma HeadOfWindow(capture: Bytes, n: nat)
    requires |capture| >= 4 * n
    ensures HeadOf(capture[..4 * n], n) == HeadOf(capture, n)
  {
    PrefixCut(capture, 4 * n, n);
    PosWithin(capture, n);
  }

  lemma TailOfWindow(capture: Bytes, n: nat)
    requires |capture| >= 4 * n
    ensures TailOf(capture[|capture| - 4 * n..], n) == TailOf(capture, n)
  {
    SuffixCut(capture, 4 * n, n);
  }

  /** The windows are four bytes for each rune kept. */
  lemma WindowSizes(capture: Bytes, limit: nat)
    requires |capture| > ReadLimit(limit)
    ensures HeadWindow(capture, limit) == capture[..4 * (limit / 2)]
    ensures TailWindow(capture, limit) == capture[|capture| - 4 * (limit - limit / 2)..]
    ensures |capture| >= 4 * (limit / 2)
  {
  }

  /** A capture longer than the read limit has more runes than are kept. */
  lemma LongCaptureHasManyRunes(capture: Bytes, limit: nat)
    requires |capture| > ReadLimit(limit)
    ensures RuneCount(capture) > limit
  {
    PosWithin(capture, RuneCount(capture));
    PosReachesEnd(capture, RuneCount(capture));
  }

  /** The bounded output of a long capture is computed from its two windows alone, for
      any bytes, valid UTF-8 or not, wherever the windows cut a rune; and the panic
      for an empty tail is not reached. */
  lemma WindowsSuffice(capture: Bytes, limit: nat, path: Bytes)
    requires limit > 0 && |capture| > ReadLimit(limit)
    ensures TailWindow(capture, limit) != []
    ensures BoundOutput(HeadWindow(capture, limit), TailWindow(capture, limit), |capture|, limit, path) ==
            BoundOutput(capture, [], |capture|, limit, path)
  {
    hide HeadOf, TailOf, RuneCount, Clean, HeadWindow;
    WindowSizes(capture, limit);
    HeadOfWindow(capture, limit / 2);
    TailOfWindow(capture, limit - limit / 2);
    LongCaptureHasManyRunes(capture, limit);
  }
}
