/**
  UTF-8 as Go's unicode/utf8 reads it, on arbitrary bytes (section 4 of RFC 3629):
  decoding forward, decoding backward, and the fact that both cut any byte string,
  valid or not, at the same places.
 */
module Utf8 {

  type Byte = x: int | 0 <= x < 256

  type Bytes = seq<Byte>

  predicate Continuation(b: Byte) { 0x80 <= b <= 0xBF }

  /** utf8.RuneStart. */
  predicate RuneStart(b: Byte) { !Continuation(b) }

  /** The second byte that may follow a lead byte (the UTF8-2, UTF8-3 and UTF8-4 rules). */
  predicate SecondFits(lead: Byte, b: Byte) {
    if lead == 0xE0 then 0xA0 <= b <= 0xBF
    else if lead == 0xED then 0x80 <= b <= 0x9F
    else if lead == 0xF0 then 0x90 <= b <= 0xBF
    else if lead == 0xF4 then 0x80 <= b <= 0x8F
    else Continuation(b)
  }

  /** How many bytes a character with this lead byte has; 0 when no character starts so. */
  function LeadSize(lead: Byte): (n: nat)
    ensures n <= 4
  {
    if lead <= 0x7F then 1
    else if 0xC2 <= lead <= 0xDF then 2
    else if 0xE0 <= lead <= 0xEF then 3
    else if 0xF0 <= lead <= 0xF4 then 4
    else 0
  }

  /** A well-formed character of `n` bytes starts at `i`. */
  predicate CharAt(s: Bytes, i: nat, n: nat) {
    && i + n <= |s| && n > 0
    && LeadSize(s[i]) == n
    && (n >= 2 ==> SecondFits(s[i], s[i + 1]))
    && (n >= 3 ==> Continuation(s[i + 2]))
    && (n == 4 ==> Continuation(s[i + 3]))
  }

  /** How many bytes utf8.DecodeRune takes at `i`: a whole character, or one byte. */
  function RuneSize(s: Bytes, i: nat): (n: nat)
    requires i < |s|
    ensures 1 <= n <= 4 && i + n <= |s|
  {
    if CharAt(s, i, LeadSize(s[i])) then LeadSize(s[i]) else 1
  }

  /** U+FFFD in UTF-8. */
  const REPLACEMENT: Bytes := [0xEF, 0xBF, 0xBD]

  /** sanitizeUTF8: well-formed characters stay, every other byte becomes U+FFFD. */
  function Sanitize(s: Bytes, i: nat): Bytes
    requires i <= |s|
    decreases |s| - i
  {
    if i == |s| then []
    else (if CharAt(s, i, LeadSize(s[i])) then s[i..i + RuneSize(s, i)] else REPLACEMENT) + Sanitize(s, i + RuneSize(s, i))
  }

  const RUNE_ERROR := 0xFFFD

  /** The code point of the character at `i`. */
  function CodePoint(s: Bytes, i: nat): (r: int)
    requires i < |s| && CharAt(s, i, LeadSize(s[i]))
  {
    var n := LeadSize(s[i]);
    var a: int := s[i];
    if n == 1 then a
    else
      var b: int := s[i + 1] - 0x80;
      if n == 2 then (a - 0xC0) * 64 + b
      else
        var c: int := s[i + 2] - 0x80;
        if n == 3 then (a - 0xE0) * 4096 + b * 64 + c
        else
          var d: int := s[i + 3] - 0x80;
          (a - 0xF0) * 262144 + b * 4096 + c * 64 + d
  }

  datatype Rune = Rune(value: int, size: nat)

  /** utf8.DecodeRune on `s[i..]`: an ill-formed sequence is one byte of RuneError. */
  function DecodeRune(s: Bytes, i: nat): (r: Rune)
    requires i < |s|
    ensures r.size == RuneSize(s, i)
  {
    if CharAt(s, i, LeadSize(s[i])) then Rune(CodePoint(s, i), LeadSize(s[i])) else Rune(RUNE_ERROR, 1)
  }

  predicate IsScalar(r: int) { 0 <= r <= 0x10FFFF && !(0xD800 <= r <= 0xDFFF) }

  /** utf8.AppendRune. */
  function EncodeRune(r: int): Bytes {
    if !IsScalar(r) then EncodeScalar(RUNE_ERROR) else EncodeScalar(r)
  }

  function EncodeScalar(r: int): Bytes
    requires 0 <= r <= 0x10FFFF
  {
    if r <= 0x7F then [r]
    else if r <= 0x7FF then [(0xC0 + r / 64), (0x80 + r % 64)]
    else if r <= 0xFFFF then [(0xE0 + r / 4096), (0x80 + r / 64 % 64), (0x80 + r % 64)]
    else [(0xF0 + r / 262144), (0x80 + r / 4096 % 64), (0x80 + r / 64 % 64), (0x80 + r % 64)]
  }

  /** string([]rune(s)), from position `i` on. */
  function Reencode(s: Bytes, i: nat): Bytes
    requires i <= |s|
    decreases |s| - i
  {
    if i == |s| then []
    else EncodeRune(DecodeRune(s, i).value) + Reencode(s, i + DecodeRune(s, i).size)
  }

  // -------------------------------------------------- decoding undoes encoding

  lemma Quotient64(x: int, y: int)
    requires 0 <= y < 64
    ensures (x * 64 + y) / 64 == x && (x * 64 + y) % 64 == y
  {
  }

  lemma Quotient4096(x: int, y: int)
    requires 0 <= y < 4096
    ensures (x * 4096 + y) / 4096 == x
  {
  }

  lemma Quotient262144(x: int, y: int)
    requires 0 <= y < 262144
    ensures (x * 262144 + y) / 262144 == x
  {
  }

  /** Six-bit digits are recovered by division. */
  lemma Digits(a: int, b: int, c: int, d: int)
    requires 0 <= b < 64 && 0 <= c < 64 && 0 <= d < 64
    ensures var r := a * 262144 + b * 4096 + c * 64 + d;
            r / 262144 == a && r / 4096 % 64 == b && r / 64 % 64 == c && r % 64 == d
            && r / 4096 == a * 64 + b && r / 64 == a * 4096 + b * 64 + c
  {
    Quotient64(a * 4096 + b * 64 + c, d);
    Quotient64(a * 64 + b, c);
    Quotient64(a, b);
    Quotient4096(a * 64 + b, c * 64 + d);
    Quotient262144(a, b * 4096 + c * 64 + d);
  }

  lemma EncodeDecode2(s: Bytes, i: nat)
    requires CharAt(s, i, 2)
    ensures EncodeRune(CodePoint(s, i)) == [s[i], s[i + 1]]
  {
    Digits(0, 0, s[i] - 0xC0, s[i + 1] - 0x80);
  }

  lemma EncodeDecode3(s: Bytes, i: nat)
    requires CharAt(s, i, 3)
    ensures EncodeRune(CodePoint(s, i)) == [s[i], s[i + 1], s[i + 2]]
  {
    Digits(0, s[i] - 0xE0, s[i + 1] - 0x80, s[i + 2] - 0x80);
  }

  lemma EncodeDecode4(s: Bytes, i: nat)
    requires CharAt(s, i, 4)
    ensures EncodeRune(CodePoint(s, i)) == [s[i], s[i + 1], s[i + 2], s[i + 3]]
  {
    var a: int, b: int, c: int, d: int := s[i] - 0xF0, s[i + 1] - 0x80, s[i + 2] - 0x80, s[i + 3] - 0x80;
    var r := CodePoint(s, i);
    Digits(a, b, c, d);
    assert 0xFFFF < r <= 0x10FFFF;
    assert EncodeRune(r)[0] == 0xF0 + r / 262144 == s[i];
    assert EncodeRune(r)[1] == 0x80 + r / 4096 % 64 == s[i + 1];
    assert EncodeRune(r)[2] == 0x80 + r / 64 % 64 == s[i + 2];
    assert EncodeRune(r)[3] == 0x80 + r % 64 == s[i + 3];
  }

  /** A well-formed character survives decoding and encoding byte for byte. */
  lemma EncodeDecode(s: Bytes, i: nat)
    requires i < |s| && CharAt(s, i, LeadSize(s[i]))
    ensures EncodeRune(DecodeRune(s, i).value) == s[i..i + RuneSize(s, i)]
  {
    match LeadSize(s[i])
    case 2 => EncodeDecode2(s, i);
    case 3 => EncodeDecode3(s, i);
    case 4 => EncodeDecode4(s, i);
    case _ => assert s[i..i + 1] == [s[i]];
  }

  lemma ErrorIsReplacement()
    ensures EncodeRune(RUNE_ERROR) == REPLACEMENT
  {
  }

  /** Sanitizing is what converting to runes and back does. */
  lemma {:induction false} SanitizeIsReencode(s: Bytes, i: nat)
    requires i <= |s|
    ensures Sanitize(s, i) == Reencode(s, i)
    decreases |s| - i
  {
    if i < |s| {
      SanitizeIsReencode(s, i + RuneSize(s, i));
      if CharAt(s, i, LeadSize(s[i])) { EncodeDecode(s, i); } else { ErrorIsReplacement(); }
    }
  }

  /** Every byte belongs to a well-formed character. */
  predicate ValidFrom(s: Bytes, i: nat)
    requires i <= |s|
    decreases |s| - i
  {
    i == |s| || (CharAt(s, i, LeadSize(s[i])) && ValidFrom(s, i + LeadSize(s[i])))
  }

  /** Valid text passes unchanged. */
  lemma {:induction false} SanitizeKeepsValid(s: Bytes, i: nat)
    requires i <= |s| && ValidFrom(s, i)
    ensures Sanitize(s, i) == s[i..]
    decreases |s| - i
  {
    if i < |s| {
      var j := i + LeadSize(s[i]);
      SanitizeKeepsValid(s, j);
      assert s[i..j] + s[j..] == s[i..];
    }
  }

  // ------------------------------------------------------------- positions

  /** Where the first `n` runes end. */
  function Pos(s: Bytes, n: nat): (p: nat)
    ensures p <= |s|
  {
    if n == 0 then 0
    else
      var p := Pos(s, n - 1);
      if p == |s| then p else p + RuneSize(s, p)
  }

  /** utf8.RuneCount of `s[i..]`. */
  function CountFrom(s: Bytes, i: nat): nat
    requires i <= |s|
    decreases |s| - i
  {
    if i == |s| then 0 else 1 + CountFrom(s, i + RuneSize(s, i))
  }

  function RuneCount(s: Bytes): nat { CountFrom(s, 0) }

  /** The size utf8.DecodeLastRune finds for `s[..end]`: that of the character that ends
      there, or one byte. */
  function LastSize(s: Bytes, end: nat): (n: nat)
    requires 0 < end <= |s|
    ensures 1 <= n <= end
  {
    if end >= 2 && CharAt(s, end - 2, 2) then 2
    else if end >= 3 && CharAt(s, end - 3, 3) then 3
    else if end >= 4 && CharAt(s, end - 4, 4) then 4
    else 1
  }

  /** Where the last `n` runes begin, decoding backward. */
  function BackPos(s: Bytes, n: nat): (p: nat)
    ensures p <= |s|
  {
    if n == 0 then |s|
    else
      var p := BackPos(s, n - 1);
      if p == 0 then 0 else p - LastSize(s, p)
  }

  lemma {:induction false} PosMonotone(s: Bytes, m: nat, n: nat)
    requires m <= n
    ensures Pos(s, m) <= Pos(s, n)
    ensures m < n && Pos(s, m) < |s| ==> Pos(s, m + 1) <= Pos(s, n) && Pos(s, m) < Pos(s, n)
  {
    if m < n { PosMonotone(s, m, n - 1); }
  }

  /** Past its first byte a rune has only continuation bytes. */
  lemma CharEndsInContinuations(s: Bytes, p: nat, r: nat)
    requires p < |s| && p <= r < p + RuneSize(s, p)
    ensures r == p || Continuation(s[r])
  {
  }

  /** A byte that is not a continuation always begins a rune. */
  lemma {:induction false} StartIsBoundary(s: Bytes, r: nat, m: nat) returns (j: nat)
    requires r < Pos(s, m) && RuneStart(s[r])
    ensures j < m && Pos(s, j) == r
  {
    if r < Pos(s, m - 1) {
      j := StartIsBoundary(s, r, m - 1);
    } else {
      j := m - 1;
      CharEndsInContinuations(s, Pos(s, j), r);
    }
  }

  /** No longer character ends where a one-byte rune does. */
  lemma NoLongerChar(s: Bytes, m: nat, n: nat)
    requires m > 0 && Pos(s, m) == Pos(s, m - 1) + 1
    requires 2 <= n <= Pos(s, m)
    ensures !CharAt(s, Pos(s, m) - n, n)
  {
    var r := Pos(s, m) - n;
    if CharAt(s, r, n) {
      var j := StartIsBoundary(s, r, m);
      PosMonotone(s, j, m - 1);
    }
  }

  /** One step back from a boundary is one step forward undone. */
  lemma StepBack(s: Bytes, m: nat)
    requires m > 0 && Pos(s, m - 1) < |s|
    ensures Pos(s, m) - LastSize(s, Pos(s, m)) == Pos(s, m - 1)
  {
    var p := Pos(s, m);
    if p == Pos(s, m - 1) + 1 {
      if p >= 2 { NoLongerChar(s, m, 2); }
      if p >= 3 { NoLongerChar(s, m, 3); }
      if p >= 4 { NoLongerChar(s, m, 4); }
    }
  }

  lemma {:induction false} CountDown(s: Bytes, k: nat)
    requires k <= RuneCount(s)
    ensures CountFrom(s, Pos(s, k)) == RuneCount(s) - k
  {
    if k > 0 { CountDown(s, k - 1); }
  }

  /** The runes cover the text exactly. */
  lemma PosReachesEnd(s: Bytes, k: nat)
    requires k <= RuneCount(s)
    ensures Pos(s, k) == |s| <==> k == RuneCount(s)
  {
    CountDown(s, k);
  }

  lemma BackStep(s: Bytes, k: nat, m: nat)
    requires k > 0 && m > 0 && BackPos(s, k - 1) == Pos(s, m) > 0
    requires Pos(s, m) - LastSize(s, Pos(s, m)) == Pos(s, m - 1)
    ensures BackPos(s, k) == Pos(s, m - 1)
  {
  }

  /** Decoding backward cuts any byte string where decoding forward does. */
  lemma {:induction false} BackwardAgrees(s: Bytes, k: nat)
    requires k <= RuneCount(s)
    ensures BackPos(s, k) == Pos(s, RuneCount(s) - k)
  {
    var m := RuneCount(s) - k;
    PosReachesEnd(s, m);
    if k > 0 {
      BackwardAgrees(s, k - 1);
      StepBack(s, m + 1);
      BackStep(s, k, m + 1);
    }
  }

  // ------------------------------------------------------- the Go algorithm

  /** Decoding in a window finds what decoding in the whole does, if it fits. */
  lemma DecodeWindow(s: Bytes, start: nat, end: nat)
    requires start < end <= |s|
    ensures var n := LeadSize(s[start]);
            RuneSize(s[start..end], 0) == if CharAt(s, start, n) && start + n <= end then n else 1
  {
    var w := s[start..end];
    assert forall k :: 0 <= k < |w| ==> w[k] == s[start + k];
  }

  /** utf8.DecodeLastRune on `s[..end]`: look back at most four bytes for a byte that
      starts a rune, decode there, and see whether it ends at `end`. */
  method DecodeLastRune(s: Bytes, end: nat) returns (size: nat)
    requires 0 < end <= |s|
    ensures size == LastSize(s, end)
  {
    var start: int := end - 1;
    if s[start] < 0x80 { return 1; }
    var lim := if end < 4 then 0 else end - 4;
    start := start - 1;
    while start >= lim
      invariant lim - 1 <= start <= end - 2
      invariant forall k :: start < k < end - 1 ==> Continuation(s[k])
    {
      if RuneStart(s[start]) { break; }
      start := start - 1;
    }
    if start < 0 { start := 0; }
    size := RuneSize(s[start..end], 0);
    DecodeWindow(s, start, end);
    if start + size != end { size := 1; }
  }
}
