/**
  File search (cmd/unreal-agent-tui/internal/filesearch/fuzzy.go): the best matches, kept
  by bounded insertion, are the first ones of all candidates sorted.

  Fuzzy matching itself is a library's; its hits are parameters.
 */
module FileSearch {
  import opened Llm
  import opened Utf8

  datatype Candidate = Candidate(rank: int, score: int, path: Bytes)

  // --------------------------------------------------------------- the order

  /** strings.Compare, from position `i`. */
  function CompareBytes(a: Bytes, b: Bytes, i: nat): (r: int)
    requires i <= |a| && i <= |b|
    ensures -1 <= r <= 1
    decreases |a| - i
  {
    if i == |a| then (if i == |b| then 0 else -1)
    else if i == |b| then 1
    else if a[i] < b[i] then -1
    else if a[i] > b[i] then 1
    else CompareBytes(a, b, i + 1)
  }

  /** cmp.Compare. */
  function CompareInt(a: int, b: int): (r: int)
    ensures -1 <= r <= 1
  {
    if a < b then -1 else if a > b then 1 else 0
  }

  /** Better filename rank, then better score, then shorter path, then path order. */
  function Compare(a: Candidate, b: Candidate): int {
    if CompareInt(b.rank, a.rank) != 0 then CompareInt(b.rank, a.rank)
    else if CompareInt(b.score, a.score) != 0 then CompareInt(b.score, a.score)
    else if CompareInt(|a.path|, |b.path|) != 0 then CompareInt(|a.path|, |b.path|)
    else CompareBytes(a.path, b.path, 0)
  }

  lemma {:induction false} BytesMirror(a: Bytes, b: Bytes, i: nat)
    requires i <= |a| && i <= |b|
    ensures CompareBytes(b, a, i) == -CompareBytes(a, b, i)
    ensures CompareBytes(a, b, i) == 0 ==> a[i..] == b[i..]
    decreases |a| - i
  {
    if i < |a| && i < |b| && a[i] == b[i] {
      BytesMirror(a, b, i + 1);
      assert a[i..] == [a[i]] + a[i + 1..];
      assert b[i..] == [b[i]] + b[i + 1..];
    }
  }

  lemma {:induction false} BytesChain(a: Bytes, b: Bytes, c: Bytes, i: nat)
    requires i <= |a| && i <= |b| && i <= |c| && CompareBytes(a, b, i) <= 0 && CompareBytes(b, c, i) <= 0
    ensures CompareBytes(a, c, i) <= 0
    decreases |a| - i
  {
    if i < |a| && i < |b| && i < |c| && a[i] == b[i] && b[i] == c[i] { BytesChain(a, b, c, i + 1); }
  }

  /** The order is total, and only equal candidates compare as equal. */
  lemma CompareIsOrder(a: Candidate, b: Candidate)
    ensures Compare(b, a) == -Compare(a, b)
    ensures Compare(a, b) == 0 <==> a == b
  {
    if |a.path| == |b.path| { BytesMirror(a.path, b.path, 0); }
    if a == b { BytesMirror(a.path, a.path, 0); }
  }

  lemma CompareChain(a: Candidate, b: Candidate, c: Candidate)
    requires Compare(a, b) <= 0 && Compare(b, c) <= 0
    ensures Compare(a, c) <= 0
  {
    if |a.path| == |b.path| && |b.path| == |c.path| && CompareBytes(a.path, b.path, 0) <= 0 && CompareBytes(b.path, c.path, 0) <= 0 {
      BytesChain(a.path, b.path, c.path, 0);
    }
  }

  predicate Ordered(s: seq<Candidate>) { forall i, j :: 0 <= i < j < |s| ==> Compare(s[i], s[j]) <= 0 }

  // ----------------------------------------------------- sorting and its top

  /** Where a candidate goes: before the first that does not come before it. */
  function Position(s: seq<Candidate>, c: Candidate, i: nat): (p: nat)
    requires i <= |s|
    ensures i <= p <= |s|
    ensures forall j :: i <= j < p ==> Compare(s[j], c) < 0
    ensures p < |s| ==> Compare(s[p], c) >= 0
    decreases |s| - i
  {
    if i == |s| || Compare(s[i], c) >= 0 then i else Position(s, c, i + 1)
  }

  function Insert(s: seq<Candidate>, c: Candidate): seq<Candidate> {
    var p := Position(s, c, 0);
    s[..p] + [c] + s[p..]
  }

  /** The first `n` candidates, sorted. */
  function Sort(candidates: seq<Candidate>, n: nat): seq<Candidate>
    requires n <= |candidates|
  {
    if n == 0 then [] else Insert(Sort(candidates, n - 1), candidates[n - 1])
  }

  function Take(s: seq<Candidate>, limit: nat): seq<Candidate> { if |s| <= limit then s else s[..limit] }

  lemma InsertOrdered(s: seq<Candidate>, c: Candidate)
    requires Ordered(s)
    ensures Ordered(Insert(s, c))
  {
    hide Compare;
    var p := Position(s, c, 0);
    var t := Insert(s, c);
    forall j | p <= j < |s| ensures Compare(c, s[j]) <= 0 {
      CompareIsOrder(s[p], c);
      if p < j { CompareChain(c, s[p], s[j]); }
    }
    forall i, j | 0 <= i < j < |t| ensures Compare(t[i], t[j]) <= 0 {
      assert t[i] == if i < p then s[i] else if i == p then c else s[i - 1];
      assert t[j] == if j < p then s[j] else if j == p then c else s[j - 1];
    }
  }

  lemma InsertPermutes(s: seq<Candidate>, c: Candidate)
    ensures multiset(Insert(s, c)) == multiset(s) + multiset{c}
  {
    assert s == s[..Position(s, c, 0)] + s[Position(s, c, 0)..];
  }

  /** Sorting gives an ordered permutation. */
  lemma {:induction false} SortIsSorting(candidates: seq<Candidate>, n: nat)
    requires n <= |candidates|
    ensures Ordered(Sort(candidates, n)) && multiset(Sort(candidates, n)) == multiset(candidates[..n])
  {
    hide Insert, Ordered, Compare;
    if n == 0 {
      NothingOrdered();
    } else {
      SortIsSorting(candidates, n - 1);
      InsertOrdered(Sort(candidates, n - 1), candidates[n - 1]);
      InsertPermutes(Sort(candidates, n - 1), candidates[n - 1]);
      assert candidates[..n] == candidates[..n - 1] + [candidates[n - 1]];
    }
  }

  lemma NothingOrdered()
    ensures Ordered([])
  {
  }

  /** Ordered permutations begin alike. */
  lemma SameFirst(a: seq<Candidate>, b: seq<Candidate>)
    requires Ordered(a) && Ordered(b) && multiset(a) == multiset(b) && a != [] && b != []
    ensures a[0] == b[0]
  {
    hide Compare;
    assert a[0] in multiset(b) && b[0] in multiset(a);
    var i :| 0 <= i < |b| && b[i] == a[0];
    var j :| 0 <= j < |a| && a[j] == b[0];
    CompareIsOrder(a[0], b[0]);
    CompareIsOrder(a[0], a[0]);
    assert Compare(a[0], a[j]) <= 0 && Compare(b[0], b[i]) <= 0;
  }

  lemma Tail(a: seq<Candidate>)
    requires Ordered(a) && a != []
    ensures Ordered(a[1..]) && multiset(a[1..]) == multiset(a) - multiset{a[0]}
  {
    assert a == [a[0]] + a[1..];
  }

  /** There is only one ordered permutation. */
  lemma {:induction false} OrderedUnique(a: seq<Candidate>, b: seq<Candidate>)
    requires Ordered(a) && Ordered(b) && multiset(a) == multiset(b)
    ensures a == b
    decreases |a|
  {
    hide Ordered;
    assert |a| == |multiset(a)| == |multiset(b)| == |b|;
    if a != [] {
      SameFirst(a, b);
      Tail(a);
      Tail(b);
      OrderedUnique(a[1..], b[1..]);
      assert a == [a[0]] + a[1..] && b == [b[0]] + b[1..];
    }
  }

  /** A bounded insertion keeps what inserting and cutting would. */
  function Keep(best: seq<Candidate>, c: Candidate, limit: nat): seq<Candidate> {
    if Position(best, c, 0) >= limit then best else Take(Insert(best, c), limit)
  }

  function KeepAll(candidates: seq<Candidate>, limit: nat, n: nat): seq<Candidate>
    requires n <= |candidates|
  {
    if n == 0 then [] else Keep(KeepAll(candidates, limit, n - 1), candidates[n - 1], limit)
  }

  lemma {:induction false} PositionInPrefix(s: seq<Candidate>, k: nat, c: Candidate, i: nat)
    requires i <= k <= |s|
    ensures Position(s[..k], c, i) == if Position(s, c, i) < k then Position(s, c, i) else k
    decreases k - i
  {
    if i < k && Compare(s[i], c) < 0 { PositionInPrefix(s, k, c, i + 1); }
  }

  /** Cutting before inserting loses nothing that would be kept. */
  lemma KeepCommutes(s: seq<Candidate>, c: Candidate, limit: nat)
    ensures Keep(Take(s, limit), c, limit) == Take(Insert(s, c), limit)
  {
    hide Compare;
    if |s| <= limit {
      var p := Position(s, c, 0);
      if p >= limit { assert Take(Insert(s, c), limit) == s; }
    } else {
      var p := Position(s, c, 0);
      PositionInPrefix(s, limit, c, 0);
      var t := s[..limit];
      if p < limit {
        assert Insert(t, c)[..limit] == Insert(s, c)[..limit];
      } else {
        assert Insert(s, c)[..limit] == t;
      }
    }
  }

  /** The kept ones are the first of all candidates sorted. */
  lemma {:induction false} KeepsTheBest(candidates: seq<Candidate>, limit: nat, n: nat)
    requires n <= |candidates|
    ensures KeepAll(candidates, limit, n) == Take(Sort(candidates, n), limit)
  {
    hide Keep, Insert;
    if n > 0 {
      KeepsTheBest(candidates, limit, n - 1);
      KeepCommutes(Sort(candidates, n - 1), candidates[n - 1], limit);
    }
  }

  /** For every list of candidates: what is kept are the first `limit` of any ordered
      permutation of them, so neither their order nor how they come in batches matters. */
  lemma BoundedInsertionIsTop(candidates: seq<Candidate>, limit: nat, sorted: seq<Candidate>)
    requires Ordered(sorted) && multiset(sorted) == multiset(candidates)
    ensures KeepAll(candidates, limit, |candidates|) == Take(sorted, limit)
  {
    KeepsTheBest(candidates, limit, |candidates|);
    SortIsSorting(candidates, |candidates|);
    assert candidates[..|candidates|] == candidates;
    OrderedUnique(Sort(candidates, |candidates|), sorted);
  }

  // ----------------------------------------------------------------- search

  /** slices.BinarySearchFunc. */
  method BinarySearch(best: seq<Candidate>, target: Candidate) returns (position: nat)
    requires Ordered(best)
    ensures position == Position(best, target, 0)
  {
    hide Compare;
    var i: nat, j: nat := 0, |best|;
    while i < j
      invariant i <= j <= |best|
      invariant forall k :: 0 <= k < i ==> Compare(best[k], target) < 0
      invariant forall k :: j <= k < |best| ==> Compare(best[k], target) >= 0
    {
      var h := (i + j) / 2;
      if Compare(best[h], target) < 0 {
        forall k | 0 <= k < h ensures Compare(best[k], target) < 0 { BeforeBefore(best[k], best[h], target); }
        i := h + 1;
      } else {
        forall k | h < k < |best| ensures Compare(best[k], target) >= 0 { AfterAfter(best[h], best[k], target); }
        j := h;
      }
    }
    position := i;
  }

  lemma BeforeBefore(a: Candidate, b: Candidate, c: Candidate)
    requires Compare(a, b) <= 0 && Compare(b, c) < 0
    ensures Compare(a, c) < 0
  {
    hide Compare;
    CompareChain(a, b, c);
    CompareIsOrder(a, c);
    CompareIsOrder(b, c);
    CompareIsOrder(a, b);
    if a == c { CompareIsOrder(b, a); }
  }

  lemma AfterAfter(a: Candidate, b: Candidate, c: Candidate)
    requires Compare(a, b) <= 0 && Compare(a, c) >= 0
    ensures Compare(b, c) >= 0
  {
    hide Compare;
    CompareIsOrder(a, c);
    CompareChain(c, a, b);
    CompareIsOrder(c, b);
  }

  /** The closure that keeps one result. */
  method KeepResult(best: seq<Candidate>, result: Candidate, limit: nat) returns (r: seq<Candidate>)
    requires Ordered(best)
    ensures r == Keep(best, result, limit)
  {
    var position := BinarySearch(best, result);
    if position >= limit { return best; }
    r := best[..position] + [result] + best[position..];
    if |r| > limit { r := r[..limit]; }
  }

  /** A hit of the fuzzy library: which path of the batch, how good, and whether the whole
      filename equals the query but for case. */
  datatype Hit = Hit(index: nat, score: int, equal: bool)

  datatype Library = Library(names: (string, seq<Bytes>) -> seq<Hit>, paths: (string, seq<Bytes>) -> seq<Hit>, runes: Bytes -> nat)

  /** The library's hits point into the batch. */
  ghost predicate InBatch(hits: seq<Hit>, batch: seq<Bytes>) { forall i :: 0 <= i < |hits| ==> hits[i].index < |batch| }

  ghost predicate Sound(lib: Library) {
    && (forall q, batch :: InBatch(lib.names(q, batch), batch))
    && (forall q, batch :: InBatch(lib.paths(q, batch), batch))
  }

  /** Without a query every path is a candidate. */
  function AllPaths(lib: Library, batch: seq<Bytes>, n: nat): seq<Candidate>
    requires n <= |batch|
  {
    if n == 0 then [] else AllPaths(lib, batch, n - 1) + [Candidate(0, 0 - lib.runes(batch[n - 1]), batch[n - 1])]
  }

  function NameHits(hits: seq<Hit>, batch: seq<Bytes>, n: nat): seq<Candidate>
    requires n <= |hits| && InBatch(hits, batch)
  {
    if n == 0 then []
    else NameHits(hits, batch, n - 1) + [Candidate(if hits[n - 1].equal then 2 else 1, hits[n - 1].score, batch[hits[n - 1].index])]
  }

  function Indexes(hits: seq<Hit>, n: nat): set<nat>
    requires n <= |hits|
  {
    if n == 0 then {} else Indexes(hits, n - 1) + {hits[n - 1].index}
  }

  /** Whole-path hits of paths whose filename did not match. */
  function PathHits(hits: seq<Hit>, named: set<nat>, batch: seq<Bytes>, n: nat): seq<Candidate>
    requires n <= |hits| && InBatch(hits, batch)
  {
    if n == 0 then []
    else PathHits(hits, named, batch, n - 1) + if hits[n - 1].index in named then [] else [Candidate(0, hits[n - 1].score, batch[hits[n - 1].index])]
  }

  /** The candidates of one batch, in the order they are met. */
  ghost function BatchCandidates(lib: Library, query: string, batch: seq<Bytes>): seq<Candidate>
    requires Sound(lib)
  {
    if query == "" then AllPaths(lib, batch, |batch|)
    else
      var names := if '/' in query then [] else lib.names(query, batch);
      var paths := lib.paths(query, batch);
      assert InBatch(names, batch) && InBatch(paths, batch);
      NameHits(names, batch, |names|) + PathHits(paths, Indexes(names, |names|), batch, |paths|)
  }

  const BATCH := 256

  function End(start: nat, n: nat): nat { if start + BATCH < n then start + BATCH else n }

  /** The candidates of the batches from `start` on. */
  ghost function Candidates(lib: Library, query: string, files: seq<Bytes>, start: nat): seq<Candidate>
    requires Sound(lib) && start <= |files|
    decreases |files| - start
  {
    if start == |files| then []
    else BatchCandidates(lib, query, files[start..End(start, |files|)]) + Candidates(lib, query, files, End(start, |files|))
  }

  lemma {:induction false} KeepOfPrefix(a: seq<Candidate>, b: seq<Candidate>, limit: nat, n: nat)
    requires n <= |a| <= |b| && forall i :: 0 <= i < n ==> a[i] == b[i]
    ensures KeepAll(a, limit, n) == KeepAll(b, limit, n)
  {
    hide Keep;
    if n > 0 { KeepOfPrefix(a, b, limit, n - 1); }
  }

  lemma KeepOneMore(seen: seq<Candidate>, c: Candidate, limit: nat)
    ensures KeepAll(seen + [c], limit, |seen| + 1) == Keep(KeepAll(seen, limit, |seen|), c, limit)
  {
    KeepOfPrefix(seen, seen + [c], limit, |seen|);
  }

  lemma KeptOrdered(seen: seq<Candidate>, limit: nat)
    ensures Ordered(KeepAll(seen, limit, |seen|))
  {
    KeepsTheBest(seen, limit, |seen|);
    SortIsSorting(seen, |seen|);
  }

  /** keep, for one candidate more than those seen. */
  method KeepNext(best: seq<Candidate>, result: Candidate, limit: nat, ghost seen: seq<Candidate>) returns (r: seq<Candidate>)
    requires best == KeepAll(seen, limit, |seen|)
    ensures r == KeepAll(seen + [result], limit, |seen| + 1)
  {
    hide Keep, Ordered;
    KeptOrdered(seen, limit);
    KeepOneMore(seen, result, limit);
    r := KeepResult(best, result, limit);
  }

  method KeepPaths(lib: Library, batch: seq<Bytes>, best: seq<Candidate>, limit: nat, ghost seen: seq<Candidate>) returns (r: seq<Candidate>)
    requires best == KeepAll(seen, limit, |seen|)
    ensures var all := seen + AllPaths(lib, batch, |batch|); r == KeepAll(all, limit, |all|)
  {
    hide KeepAll;
    r := best;
    assert seen + [] == seen;
    for i := 0 to |batch|
      invariant var now := seen + AllPaths(lib, batch, i); r == KeepAll(now, limit, |now|)
    {
      var c := Candidate(0, 0 - lib.runes(batch[i]), batch[i]);
      assert seen + AllPaths(lib, batch, i + 1) == (seen + AllPaths(lib, batch, i)) + [c];
      r := KeepNext(r, c, limit, seen + AllPaths(lib, batch, i));
    }
  }

  method KeepNames(names: seq<Hit>, batch: seq<Bytes>, best: seq<Candidate>, limit: nat, ghost seen: seq<Candidate>)
    returns (r: seq<Candidate>, filenameMatches: set<nat>)
    requires best == KeepAll(seen, limit, |seen|) && InBatch(names, batch)
    ensures filenameMatches == Indexes(names, |names|)
    ensures var all := seen + NameHits(names, batch, |names|); r == KeepAll(all, limit, |all|)
  {
    hide KeepAll;
    r, filenameMatches := best, {};
    assert seen + [] == seen;
    for i := 0 to |names|
      invariant filenameMatches == Indexes(names, i)
      invariant var now := seen + NameHits(names, batch, i); r == KeepAll(now, limit, |now|)
    {
      filenameMatches := filenameMatches + {names[i].index};
      var c := Candidate(if names[i].equal then 2 else 1, names[i].score, batch[names[i].index]);
      assert seen + NameHits(names, batch, i + 1) == (seen + NameHits(names, batch, i)) + [c];
      r := KeepNext(r, c, limit, seen + NameHits(names, batch, i));
    }
  }

  method KeepRest(paths: seq<Hit>, filenameMatches: set<nat>, batch: seq<Bytes>, best: seq<Candidate>, limit: nat, ghost seen: seq<Candidate>)
    returns (r: seq<Candidate>)
    requires best == KeepAll(seen, limit, |seen|) && InBatch(paths, batch)
    ensures var all := seen + PathHits(paths, filenameMatches, batch, |paths|); r == KeepAll(all, limit, |all|)
  {
    hide KeepAll;
    r := best;
    assert seen + [] == seen;
    for i := 0 to |paths|
      invariant var now := seen + PathHits(paths, filenameMatches, batch, i); r == KeepAll(now, limit, |now|)
    {
      ghost var now := seen + PathHits(paths, filenameMatches, batch, i);
      if paths[i].index !in filenameMatches {
        var c := Candidate(0, paths[i].score, batch[paths[i].index]);
        assert seen + PathHits(paths, filenameMatches, batch, i + 1) == now + [c];
        r := KeepNext(r, c, limit, now);
      } else {
        assert seen + PathHits(paths, filenameMatches, batch, i + 1) == now;
      }
    }
  }

  /** One batch of paths. */
  method SearchBatch(lib: Library, query: string, batch: seq<Bytes>, best: seq<Candidate>, limit: nat, ghost seen: seq<Candidate>)
    returns (r: seq<Candidate>)
    requires Sound(lib) && best == KeepAll(seen, limit, |seen|)
    ensures var all := seen + BatchCandidates(lib, query, batch); r == KeepAll(all, limit, |all|)
  {
    hide KeepAll, NameHits, PathHits, AllPaths, Indexes;
    if query == "" {
      r := KeepPaths(lib, batch, best, limit, seen);
      return;
    }
    var names := if '/' in query then [] else lib.names(query, batch);
    var paths := lib.paths(query, batch);
    assert InBatch(names, batch) && InBatch(paths, batch);
    var filenameMatches;
    r, filenameMatches := KeepNames(names, batch, best, limit, seen);
    ghost var named := seen + NameHits(names, batch, |names|);
    r := KeepRest(paths, filenameMatches, batch, r, limit, named);
    assert named + PathHits(paths, filenameMatches, batch, |paths|) == seen + BatchCandidates(lib, query, batch);
  }

  /** How many batches there are from `start` on. */
  function Batches(start: nat, n: nat): nat
    decreases n - start
  {
    if start >= n then 0 else 1 + Batches(End(start, n), n)
  }

  /** One batch more is seen. */
  lemma NextBatch(lib: Library, query: string, files: seq<Bytes>, start: nat, seen: seq<Candidate>)
    requires Sound(lib) && start < |files|
    ensures var end := End(start, |files|);
            seen + Candidates(lib, query, files, start) ==
            (seen + BatchCandidates(lib, query, files[start..end])) + Candidates(lib, query, files, end)
  {
    hide BatchCandidates;
  }

  lemma NothingBefore(lib: Library, query: string, files: seq<Bytes>, limit: nat)
    requires Sound(lib)
    ensures Candidates(lib, query, files, |files|) == [] && KeepAll([], limit, 0) == []
  {
  }

  /** Index.Search, but for what a match shows: the first `limit` of all candidates, in
      the order of the sort, or None if the context is canceled at one of its checks, which
      come before each batch and after the last. */
  method Search(lib: Library, files: seq<Bytes>, text: string, limit: int, canceled: nat -> bool) returns (r: Option<seq<Candidate>>)
    requires Sound(lib)
    ensures limit <= 0 ==> r == Some([])
    ensures limit > 0 ==> (r.None? <==> exists check: nat :: check <= Batches(0, |files|) && canceled(check))
    ensures limit > 0 && r.Some? ==>
              var all := Candidates(lib, TrimPrefix(text), files, 0);
              r.value == Take(Sort(all, |all|), limit)
  {
    hide KeepAll, Sort, BatchCandidates, Candidates;
    if limit <= 0 { return Some([]); }
    var query := TrimPrefix(text);
    var best: seq<Candidate> := [];
    var start, checks := 0, 0;
    ghost var all := Candidates(lib, query, files, 0);
    ghost var seen: seq<Candidate> := [];
    NothingBefore(lib, query, files, limit);
    assert seen + all == all;
    while start < |files|
      invariant start <= |files| && all == seen + Candidates(lib, query, files, start)
      invariant best == KeepAll(seen, limit, |seen|)
      invariant checks + Batches(start, |files|) == Batches(0, |files|)
      invariant forall check: nat :: check < checks ==> !canceled(check)
      decreases |files| - start
    {
      if canceled(checks) { return None; }
      checks := checks + 1;
      var end := End(start, |files|);
      ghost var batch := BatchCandidates(lib, query, files[start..end]);
      NextBatch(lib, query, files, start, seen);
      best := SearchBatch(lib, query, files[start..end], best, limit, seen);
      seen := seen + batch;
      start := end;
    }
    if canceled(checks) { return None; }
    assert all == seen;
    KeepsTheBest(all, limit, |all|);
    r := Some(best);
  }

  function TrimPrefix(text: string): string { if |text| >= 2 && text[..2] == "./" then text[2..] else text }
}
