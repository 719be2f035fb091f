/**
  The invariant that links the context builder to the Messages encoder.

  A ledger records for each tool call whether it has no result yet, a running
  result, or its final one. `Strict` is the discipline a history keeps when the
  coordinator's protocol is followed; it implies that the encoder's ordering rules
  hold, and it survives every builder operation, compaction included.
 */
module BuilderProtocol {
  import opened Llm
  import opened ContextBuilder
  import MessagesRequest

  datatype Phase = Unanswered | Running | Done

  function LedgerStep(l: map<string, Phase>, item: Item): map<string, Phase> {
    match item
    case ToolCall(id, _, _) => l[id := Unanswered]
    case ToolResult(id, _, running) => l[id := if running then Running else Done]
    case _ => l
  }

  /** The phase of every call after the first `k` items. */
  function Ledger(items: seq<Item>, k: nat): map<string, Phase>
    requires k <= |items|
  {
    if k == 0 then map[] else LedgerStep(Ledger(items, k - 1), items[k - 1])
  }

  predicate AllHaveResult(l: map<string, Phase>) {
    forall id :: id in l ==> l[id] != Unanswered
  }

  predicate Open(l: map<string, Phase>, id: string) {
    id in l && l[id] != Done
  }

  /** The encoder's rule for item `i`, and no result after a final one. */
  predicate StrictAt(items: seq<Item>, i: nat)
    requires i < |items|
  {
    match ItemSide(items[i])
    case None => false
    case Some(User) => items[i].ToolResult? ==> Open(Ledger(items, i), items[i].callID)
    case Some(Assistant) =>
      && (i > 0 && ItemSide(items[i - 1]) == Some(User) ==> AllHaveResult(Ledger(items, i)))
      && (items[i].ToolCall? ==> items[i].callID !in Ledger(items, i))
  }

  predicate Strict(items: seq<Item>, k: nat)
    requires k <= |items|
  {
    forall i :: 0 <= i < k ==> StrictAt(items, i)
  }

  /** The assistant may go on after `k` items: it spoke last, or nothing is unanswered. */
  predicate Closable(items: seq<Item>, k: nat)
    requires k <= |items|
  {
    (k > 0 && ItemSide(items[k - 1]) == Some(Assistant)) || AllHaveResult(Ledger(items, k))
  }

  // --------------------------------------------- the ledger and the encoder

  /** The ledger refines what the encoder knows about names and first answers. */
  lemma {:induction false} LedgerRefinesReading(items: seq<Item>, k: nat)
    requires k <= |items| && Strict(items, k)
    ensures MessagesRequest.WellOrdered(items, k)
    ensures forall id :: id in MessagesRequest.Names(items, k) <==> id in Ledger(items, k)
    ensures forall id :: id in Ledger(items, k) ==>
              (Ledger(items, k)[id] == Unanswered <==> id !in MessagesRequest.FirstAnswers(items, k))
  {
    if k > 0 {
      assert StrictAt(items, k - 1);
      LedgerRefinesReading(items, k - 1);
      MessagesRequest.AnsweredAreKnown(items, k - 1);
      assert MessagesRequest.FitsAt(items, k - 1);
    }
  }

  /** A strict history in which every call has a result satisfies the encoder. */
  lemma StrictIsSettled(items: seq<Item>)
    requires Strict(items, |items|)
    ensures MessagesRequest.Settled(items, |items|) <==> AllHaveResult(Ledger(items, |items|))
  {
    LedgerRefinesReading(items, |items|);
    if MessagesRequest.Settled(items, |items|) {
      forall id | id in Ledger(items, |items|) ensures Ledger(items, |items|)[id] != Unanswered {
        assert id in MessagesRequest.Names(items, |items|);
      }
    }
  }

  // ------------------------------------------------ how the ledger develops

  predicate SamePrefix(a: seq<Item>, b: seq<Item>, k: nat) {
    k <= |a| && k <= |b| && forall i :: 0 <= i < k ==> a[i] == b[i]
  }

  lemma {:induction false} LedgerOfPrefix(a: seq<Item>, b: seq<Item>, k: nat)
    requires SamePrefix(a, b, k)
    ensures Ledger(a, k) == Ledger(b, k)
  {
    if k > 0 { LedgerOfPrefix(a, b, k - 1); }
  }

  lemma StrictOfPrefix(a: seq<Item>, b: seq<Item>, k: nat)
    requires SamePrefix(a, b, k) && Strict(a, k)
    ensures Strict(b, k) && Ledger(b, k) == Ledger(a, k)
    ensures Closable(a, k) <==> Closable(b, k)
  {
    forall i | 0 <= i < k ensures StrictAt(b, i) {
      assert StrictAt(a, i);
      LedgerOfPrefix(a, b, i);
    }
    LedgerOfPrefix(a, b, k);
  }

  /** Once a call has its final result nothing more is said about it. */
  lemma {:induction false} DoneIsFinal(items: seq<Item>, j: nat, k: nat)
    requires j < k <= |items| && Strict(items, k)
    requires items[j].ToolResult? && !items[j].running
    ensures items[j].callID in Ledger(items, k) && Ledger(items, k)[items[j].callID] == Done
  {
    if j < k - 1 {
      assert StrictAt(items, k - 1);
      DoneIsFinal(items, j, k - 1);
    }
  }

  /** An unanswered or unknown call has no result among the items. */
  lemma {:induction false} UnansweredHasNoResult(items: seq<Item>, k: nat, id: string)
    requires k <= |items| && Strict(items, k)
    requires id in Ledger(items, k) ==> Ledger(items, k)[id] == Unanswered
    ensures forall i :: 0 <= i < k ==> !(items[i].ToolResult? && items[i].callID == id)
  {
    if k > 0 {
      assert StrictAt(items, k - 1);
      UnansweredHasNoResult(items, k - 1, id);
    }
  }

  /** Appending one item. */
  lemma StrictSnoc(items: seq<Item>, item: Item)
    requires Strict(items, |items|)
    requires match ItemSide(item)
             case None => false
             case Some(User) => item.ToolResult? ==> Open(Ledger(items, |items|), item.callID)
             case Some(Assistant) =>
               && Closable(items, |items|)
               && (item.ToolCall? ==> item.callID !in Ledger(items, |items|))
    ensures Strict(items + [item], |items| + 1)
    ensures Ledger(items + [item], |items| + 1) == LedgerStep(Ledger(items, |items|), item)
  {
    StrictOfPrefix(items, items + [item], |items|);
    assert StrictAt(items + [item], |items|);
  }

  // ------------------------------------------------------ list surgery

  /** Everything still open in `l` stands the same way in `m`. */
  predicate Keeps(l: map<string, Phase>, m: map<string, Phase>) {
    forall id :: id in l && l[id] != Done ==> id in m && m[id] == l[id]
  }

  /** `m` records nothing that `l` does not. */
  predicate Within(m: map<string, Phase>, l: map<string, Phase>) {
    forall id :: id in m ==> id in l && m[id] == l[id]
  }

  /** `b[p..p + n]` is `a[e..e + n]`. */
  predicate SameRange(a: seq<Item>, e: nat, b: seq<Item>, p: nat, n: nat) {
    e + n <= |a| && p + n <= |b| && forall i :: p <= i < p + n ==> b[i] == a[i - p + e]
  }

  /** A stretch of history stays strict after another beginning that agrees with the
      old one on every open call and knows no others. */
  lemma {:induction false} Transplant(a: seq<Item>, e: nat, b: seq<Item>, p: nat, n: nat)
    requires SameRange(a, e, b, p, n) && Strict(a, e + n) && Strict(b, p)
    requires Keeps(Ledger(a, e), Ledger(b, p)) && Within(Ledger(b, p), Ledger(a, e))
    requires Closable(b, p)
    ensures Strict(b, p + n)
    ensures Keeps(Ledger(a, e + n), Ledger(b, p + n)) && Within(Ledger(b, p + n), Ledger(a, e + n))
  {
    if n > 0 {
      Transplant(a, e, b, p, n - 1);
      assert StrictAt(a, e + (n - 1));
      assert b[p + (n - 1)] == a[e + (n - 1)];
      assert n > 1 ==> b[p + (n - 2)] == a[e + (n - 2)];
      assert StrictAt(b, p + (n - 1));
    }
  }

  /** `m` is `l` with the calls of `extra` added, unanswered. */
  ghost predicate Adds(l: map<string, Phase>, m: map<string, Phase>, extra: set<string>) {
    && (forall id :: id in m <==> id in l || id in extra)
    && (forall id :: id in l ==> m[id] == l[id])
    && (forall id :: id in extra && id !in l ==> m[id] == Unanswered)
  }

  /** User items stay strict after a beginning with more calls. */
  lemma {:induction false} TransplantUser(a: seq<Item>, e: nat, b: seq<Item>, p: nat, n: nat, extra: set<string>)
    requires SameRange(a, e, b, p, n) && Strict(a, e + n) && Strict(b, p)
    requires forall i :: p <= i < p + n ==> ItemSide(b[i]) == Some(User)
    requires Adds(Ledger(a, e), Ledger(b, p), extra)
    ensures Strict(b, p + n)
    ensures Adds(Ledger(a, e + n), Ledger(b, p + n), extra)
  {
    if n > 0 {
      TransplantUser(a, e, b, p, n - 1, extra);
      assert StrictAt(a, e + (n - 1));
      assert b[p + (n - 1)] == a[e + (n - 1)];
      assert StrictAt(b, p + (n - 1));
    }
  }

  /** Replacing the only staged result of a call changes only that call's phase. */
  lemma {:induction false} ReplaceResult(items: seq<Item>, j: nat, result: Item, k: nat)
    requires j < k <= |items| && Strict(items, k)
    requires items[j].ToolResult? && result.ToolResult? && items[j].callID == result.callID
    requires forall i :: j < i < k ==> ItemSide(items[i]) == Some(User)
    requires forall i :: j < i < k ==> !(items[i].ToolResult? && items[i].callID == result.callID)
    ensures Strict(items[j := result], k)
    ensures Ledger(items[j := result], k) ==
            Ledger(items, k)[result.callID := if result.running then Running else Done]
  {
    var b := items[j := result];
    assert StrictAt(items, k - 1);
    if k == j + 1 {
      StrictOfPrefix(items, b, j);
      assert StrictAt(b, j);
    } else {
      ReplaceResult(items, j, result, k - 1);
      assert StrictAt(b, k - 1);
    }
  }

  // ------------------------------------------------------- pending calls

  /** What collectPendingToolCalls finds, in terms of the ledger: the calls still open,
      in order of appearance, with a result exactly when one has been shown. */
  ghost predicate PendingMatches(items: seq<Item>, p: PendingCalls, l: map<string, Phase>) {
    && (forall id :: id in p.calls <==> Open(l, id))
    && (forall id :: id in p.calls ==>
          && p.calls[id].item in items && p.calls[id].item.ToolCall? && p.calls[id].item.callID == id
          && (p.calls[id].result.None? <==> l[id] == Unanswered)
          && (p.calls[id].result.Some? ==> p.calls[id].result.value.ToolResult? && p.calls[id].result.value.running))
  }

  lemma {:induction false} CollectMeaning(items: seq<Item>, k: nat)
    requires k <= |items| && Strict(items, k)
    ensures PendingMatches(items, Collect(items, 0, k), Ledger(items, k))
  {
    if k > 0 {
      assert StrictAt(items, k - 1);
      CollectMeaning(items, k - 1);
    }
  }

  /** Each call appears once in the order. */
  predicate DistinctOrder(order: seq<string>) {
    forall i, j :: 0 <= i < j < |order| ==> order[i] != order[j]
  }

  /** The calls already answered come before those that are not. */
  predicate AnsweredFirst(order: seq<string>, l: map<string, Phase>) {
    forall i, j :: 0 <= i < j < |order| && order[i] in l && l[order[i]] == Unanswered ==>
      order[j] in l && l[order[j]] != Running
  }

  lemma {:induction false} OrderMeaning(items: seq<Item>, k: nat)
    requires k <= |items| && Strict(items, k)
    ensures forall id :: id in Collect(items, 0, k).order <==> id in Ledger(items, k)
    ensures DistinctOrder(Collect(items, 0, k).order)
  {
    if k > 0 {
      assert StrictAt(items, k - 1);
      OrderMeaning(items, k - 1);
    }
  }

  /** From item `j` on, up to the first `k`, the assistant speaks, and makes every call that has
      no result there. */
  predicate Trailing(items: seq<Item>, j: nat, k: nat)
    requires j <= k <= |items|
  {
    && (forall i :: j <= i < k ==> ItemSide(items[i]) == Some(Assistant))
    && (forall id :: id in Ledger(items, k) && Ledger(items, k)[id] == Unanswered ==>
          id !in Ledger(items, j) && exists i :: j <= i < k && items[i].ToolCall? && items[i].callID == id)
  }

  /** At a response boundary the unanswered calls are all made in the trailing run of
      assistant items, so they come last among the pending calls. */
  lemma {:induction false} UnansweredAreTrailing(items: seq<Item>, k: nat) returns (j: nat)
    requires k <= |items| && Strict(items, k) && Closable(items, k)
    ensures j <= k && Trailing(items, j, k)
    ensures AnsweredFirst(Collect(items, 0, k).order, Ledger(items, k))
  {
    j := k;
    OrderMeaning(items, k);
    if k > 0 && !AllHaveResult(Ledger(items, k)) {
      assert StrictAt(items, k - 1);
      assert k > 1 ==> StrictAt(items, k - 2);
      OrderMeaning(items, k - 1);
      j := UnansweredAreTrailing(items, k - 1);
      TrailingSnoc(items, j, k);
    }
  }

  /** One assistant item more. */
  lemma TrailingSnoc(items: seq<Item>, j: nat, k: nat)
    requires j < k <= |items| && Trailing(items, j, k - 1) && ItemSide(items[k - 1]) == Some(Assistant) && StrictAt(items, k - 1)
    ensures Trailing(items, j, k)
  {
    LedgerOnly(items, j, k - 1);
    forall id | id in Ledger(items, k) && Ledger(items, k)[id] == Unanswered
      ensures id !in Ledger(items, j) && exists i :: j <= i < k && items[i].ToolCall? && items[i].callID == id
    {
      if items[k - 1].ToolCall? && items[k - 1].callID == id {
      } else {
        var i :| j <= i < k - 1 && items[i].ToolCall? && items[i].callID == id;
      }
    }
  }

  /** Calls once known stay known. */
  lemma {:induction false} LedgerOnly(items: seq<Item>, j: nat, k: nat)
    requires j <= k <= |items|
    ensures Ledger(items, j).Keys <= Ledger(items, k).Keys
  {
    if j < k { LedgerOnly(items, j, k - 1); }
  }

  /** Collecting from the committed prefix, which starts with the system message. */
  lemma {:induction false} CollectShift(committed: seq<Item>, items: seq<Item>, k: nat)
    requires k <= |items| && k + 1 <= |committed|
    requires forall i :: 0 <= i < k ==> items[i] == committed[i + 1]
    ensures Collect(committed, 1, k + 1) == Collect(items, 0, k)
  {
    if k > 0 { CollectShift(committed, items, k - 1); }
  }

  // --------------------------------------- a compaction request is acceptable

  lemma NoRunningResult(staged: seq<Item>, id: string)
    requires Strict(staged, |staged|)
    requires id in Ledger(staged, |staged|) ==> Ledger(staged, |staged|)[id] == Unanswered
    ensures RunningIndex(staged, id, 0) == |staged|
  {
    UnansweredHasNoResult(staged, |staged|, id);
  }

  /** `m` is `l` after the first `n` calls of `order` have been given a running result. */
  ghost predicate AnsweredUpTo(l: map<string, Phase>, m: map<string, Phase>, order: seq<string>, n: nat) {
    && (forall id :: id in m <==> id in l)
    && (forall id :: id in l && l[id] != Unanswered ==> m[id] == l[id])
    && (forall i :: 0 <= i < |order| && order[i] in l ==>
          if i < n then m[order[i]] != Unanswered else m[order[i]] == l[order[i]])
  }

  /** `staged` extends `history` by running results only. */
  predicate ExtendsByRunning(history: seq<Item>, staged: seq<Item>) {
    && |history| <= |staged|
    && (forall i :: 0 <= i < |history| ==> staged[i] == history[i])
    && (forall i :: |history| <= i < |staged| ==>
          staged[i].ToolResult? && staged[i].running && staged[i].output == RUNNING_PAYLOAD)
  }

  lemma MissingResultsStep(l: map<string, Phase>, p: PendingCalls, n: nat, before: seq<Item>, items: seq<Item>)
    requires 0 < n <= |p.order| && PendingMatches(items, p, l) && DistinctOrder(p.order)
    requires Strict(before, |before|) && AnsweredUpTo(l, Ledger(before, |before|), p.order, n - 1)
    ensures var id := p.order[n - 1];
            var staged := if id in p.calls && p.calls[id].result.None? then StageResult(before, ResultItem(id, [], true)) else before;
            && Strict(staged, |staged|)
            && AnsweredUpTo(l, Ledger(staged, |staged|), p.order, n)
            && ExtendsByRunning(before, staged)
  {
    var id := p.order[n - 1];
    if id in p.calls && p.calls[id].result.None? {
      NoRunningResult(before, id);
      StrictSnoc(before, ResultItem(id, [], true));
    }
  }

  lemma NothingMissing(history: seq<Item>)
    ensures var p := Collect(history, 0, |history|);
            AnsweredUpTo(Ledger(history, |history|), Ledger(history, |history|), p.order, 0)
  {
  }

  lemma {:induction false} MissingResultsStrict(history: seq<Item>, n: nat)
    requires Strict(history, |history|) && n <= |Collect(history, 0, |history|).order|
    ensures var p := Collect(history, 0, |history|);
            var staged := MissingResults(history, p, n);
            && Strict(staged, |staged|)
            && AnsweredUpTo(Ledger(history, |history|), Ledger(staged, |staged|), p.order, n)
            && ExtendsByRunning(history, staged)
  {
    hide Strict, AnsweredUpTo, PendingMatches, DistinctOrder, Collect, Ledger, StageResult;
    if n == 0 {
      NothingMissing(history);
    } else {
      var p := Collect(history, 0, |history|);
      MissingResultsStrict(history, n - 1);
      CollectMeaning(history, |history|);
      OrderMeaning(history, |history|);
      MissingResultsStep(Ledger(history, |history|), p, n, MissingResults(history, p, n - 1), history);
    }
  }

  /** What a summarizer is asked: the history, a running result for each call that has
      none, and the closing user message. Every call then has a result. */
  lemma SummarizerInputSettled(history: seq<Item>)
    requires Strict(history, |history|)
    ensures var p := Collect(history, 0, |history|);
            var staged := MissingResults(history, p, |p.order|) + [UserItem(COMPACTION_REQUEST)];
            && MessagesRequest.Settled(staged, |staged|)
            && (MessagesRequest.AllEncodable(staged) <==> MessagesRequest.AllEncodable(history))
  {
    var p := Collect(history, 0, |history|);
    var answered := MissingResults(history, p, |p.order|);
    var staged := answered + [UserItem(COMPACTION_REQUEST)];
    MissingResultsStrict(history, |p.order|);
    OrderMeaning(history, |history|);
    forall id | id in Ledger(answered, |answered|) ensures Ledger(answered, |answered|)[id] != Unanswered {
      assert id in p.order;
    }
    StrictSnoc(answered, UserItem(COMPACTION_REQUEST));
    StrictIsSettled(staged);
    forall i | 0 <= i < |staged| ensures
      if i < |history| then staged[i] == history[i] else MessagesRequest.Encodable(staged[i])
    {
      if |history| <= i < |answered| { RunningPayloadEncodable(); assert staged[i] == answered[i]; }
    }
    if MessagesRequest.AllEncodable(staged) {
      forall i | 0 <= i < |history| ensures MessagesRequest.Encodable(history[i]) { assert staged[i] == history[i]; }
    }
  }

  lemma RunningPayloadEncodable()
    ensures MessagesRequest.OutputBlocks(RUNNING_PAYLOAD).Some?
  {
    assert RUNNING_PAYLOAD[1..] == [];
  }

  // -------------------------------------------- what compaction carries over

  /** The beginning that replaces the dropped history, after the first `n` calls:
      strict, settled enough to go on, and recording just those calls as they stood. */
  ghost predicate CarriedUpTo(l: map<string, Phase>, carried: seq<Item>, order: seq<string>, n: nat)
    requires n <= |order|
  {
    && Strict(carried, |carried|)
    && Closable(carried, |carried|)
    && Within(Ledger(carried, |carried|), l)
    && (forall i :: 0 <= i < |order| ==>
          (order[i] in Ledger(carried, |carried|) <==> i < n && Open(l, order[i])))
    && (forall id :: id in Ledger(carried, |carried|) ==> id in order)
  }

  lemma CarryStep(l: map<string, Phase>, p: PendingCalls, n: nat, before: seq<Item>, items: seq<Item>)
    requires 0 < n <= |p.order| && PendingMatches(items, p, l)
    requires DistinctOrder(p.order) && AnsweredFirst(p.order, l)
    requires CarriedUpTo(l, before, p.order, n - 1)
    ensures var id := p.order[n - 1];
            var carried :=
              if id !in p.calls then before
              else
                match p.calls[id].result
                case Some(ToolResult(_, output, running)) => StageResult(before + [p.calls[id].item], ResultItem(id, output, running))
                case _ => before + [p.calls[id].item];
            CarriedUpTo(l, carried, p.order, n)
  {
    var id := p.order[n - 1];
    if id in p.calls {
      var call := p.calls[id].item;
      var asked := before + [call];
      StrictSnoc(before, call);
      if p.calls[id].result.Some? {
        assert l[id] == Running;
        NoRunningResult(asked, id);
        forall other | other in Ledger(before, |before|) ensures l[other] != Unanswered {
          var i :| 0 <= i < |p.order| && p.order[i] == other;
        }
        StrictSnoc(asked, ResultItem(id, p.calls[id].result.value.output, true));
      }
    }
  }

  lemma {:induction false} CarriedForward(items: seq<Item>, k: nat, summary: string, n: nat)
    requires k <= |items| && Strict(items, k) && Closable(items, k)
    requires n <= |Collect(items, 0, k).order|
    ensures var p := Collect(items, 0, k);
            CarriedUpTo(Ledger(items, k), CarryForward([UserItem(summary)], p, n), p.order, n)
  {
    var p := Collect(items, 0, k);
    if n == 0 {
      assert StrictAt([UserItem(summary)], 0);
    } else {
      CarriedForward(items, k, summary, n - 1);
      CollectMeaning(items, k);
      OrderMeaning(items, k);
      var _ := UnansweredAreTrailing(items, k);
      CarryStep(Ledger(items, k), p, n, CarryForward([UserItem(summary)], p, n - 1), items);
    }
  }

  // ---------------------------------------------------------- the invariant

  /** The conversation a request carries, without its system message. */
  function Conversation(s: State): seq<Item>
    requires s.committed != []
  {
    s.committed[1..] + s.staged
  }

  predicate StagedOnce(staged: seq<Item>) {
    forall i, j :: 0 <= i < j < |staged| && staged[i].ToolResult? && staged[j].ToolResult? ==>
      staged[i].callID != staged[j].callID
  }

  predicate StagedByUser(staged: seq<Item>) {
    forall i :: 0 <= i < |staged| ==> ItemSide(staged[i]) == Some(User)
  }

  predicate Inv(s: State) {
    && CheckpointsInRange(s)
    && s.committed[0] == SystemItem(s.preamble, s.systemPrompt)
    && Strict(Conversation(s), |Conversation(s)|)
    && Closable(Conversation(s), |s.committed| - 1)
    && StagedByUser(s.staged) && StagedOnce(s.staged)
    && forall i :: 0 <= i < |s.checkpoints| ==> Closable(Conversation(s), s.checkpoints[i].end - 1)
  }

  /** The phase of each call after everything committed and staged. */
  function Now(s: State): map<string, Phase>
    requires s.committed != []
  {
    Ledger(Conversation(s), |Conversation(s)|)
  }

  // -------------------------------------------- what callers must respect

  /** Adding a response: the assistant's items only, with call IDs that are new. */
  predicate ResponseFits(s: State, output: seq<Item>)
    requires s.committed != []
  {
    && (forall i :: 0 <= i < |output| ==> ItemSide(output[i]) == Some(Assistant))
    && (forall i :: 0 <= i < |output| && output[i].ToolCall? ==> output[i].callID !in Now(s))
    && (forall i, j :: 0 <= i < j < |output| && output[i].ToolCall? && output[j].ToolCall? ==>
          output[i].callID != output[j].callID)
  }

  // ------------------------------------------- every operation keeps it

  lemma NewBuilderInv(preamble: string)
    ensures Inv(NewBuilder(preamble)) && Now(NewBuilder(preamble)) == map[]
  {
  }

  lemma StageUserInv(s: State, text: string)
    requires Inv(s)
    ensures Inv(StageUser(s, text)) && Now(StageUser(s, text)) == Now(s)
  {
    var c, t := Conversation(s), StageUser(s, text);
    assert Conversation(t) == c + [UserItem(text)];
    StrictSnoc(c, UserItem(text));
    CheckpointsKept(s, t);
  }

  /** Growing the staged suffix leaves every boundary of the committed prefix as it was. */
  lemma CheckpointsKept(s: State, t: State)
    requires Inv(s) && t.committed == s.committed && |t.staged| >= |s.staged|
    ensures forall k :: 0 <= k < |s.committed| ==> (Closable(Conversation(t), k) <==> Closable(Conversation(s), k))
  {
    forall k | 0 <= k < |s.committed| ensures Closable(Conversation(t), k) <==> Closable(Conversation(s), k) {
      forall i | 0 <= i < k ensures StrictAt(Conversation(s), i) {}
      StrictOfPrefix(Conversation(s), Conversation(t), k);
    }
  }

  lemma SettingsInv(s: State, settings: Settings)
    requires Inv(s)
    ensures Inv(ApplySettings(s, settings)) && Now(ApplySettings(s, settings)) == Now(s)
  {
  }

  lemma CommitInv(s: State)
    requires Inv(s) && AllHaveResult(Now(s))
    ensures Inv(Commit(s)) && Now(Commit(s)) == Now(s)
  {
    assert Conversation(Commit(s)) == Conversation(s);
  }

  lemma AddToolResultInv(s: State, id: string, payload: seq<Part>, running: bool)
    requires Inv(s) && Open(Now(s), id)
    ensures Inv(AddToolResult(s, id, payload, running))
    ensures Now(AddToolResult(s, id, payload, running)) == Now(s)[id := if running then Running else Done]
  {
    hide Ledger, Strict, Closable;
    var c, t := Conversation(s), AddToolResult(s, id, payload, running);
    var result := ResultItem(id, payload, running);
    var i := RunningIndex(s.staged, id, 0);
    var base := |s.committed| - 1;
    CheckpointsKept(s, t);
    if i < |s.staged| {
      assert Conversation(t) == c[base + i := result];
      assert c[base + i] == s.staged[i];
      ReplaceResult(c, base + i, result, |c|);
    } else {
      assert Conversation(t) == c + [result];
      StrictSnoc(c, result);
      forall j | 0 <= j < |s.staged| && s.staged[j].ToolResult? ensures s.staged[j].callID != id {
        assert c[base + j] == s.staged[j];
        if s.staged[j].callID == id { DoneIsFinal(c, base + j, |c|); }
      }
    }
  }

  /** The call IDs among `items`. */
  function CallSet(items: seq<Item>): set<string> {
    set i | 0 <= i < |items| && items[i].ToolCall? :: items[i].callID
  }

  lemma {:induction false} ResponseStrict(items: seq<Item>, output: seq<Item>, n: nat)
    requires n <= |output| && Strict(items, |items|) && Closable(items, |items|)
    requires forall i :: 0 <= i < |output| ==> ItemSide(output[i]) == Some(Assistant)
    requires forall i :: 0 <= i < |output| && output[i].ToolCall? ==> output[i].callID !in Ledger(items, |items|)
    requires forall i, j :: 0 <= i < j < |output| && output[i].ToolCall? && output[j].ToolCall? ==>
               output[i].callID != output[j].callID
    ensures var more := items + output[..n];
            && Strict(more, |more|) && Closable(more, |more|)
            && Adds(Ledger(items, |items|), Ledger(more, |more|), CallSet(output[..n]))
  {
    if n == 0 {
      assert items + output[..0] == items;
    } else {
      ResponseStrict(items, output, n - 1);
      assert items + output[..n] == (items + output[..n - 1]) + [output[n - 1]];
      forall i | 0 <= i < n - 1 && output[i].ToolCall? ensures output[..n - 1][i] == output[i] {}
      assert CallSet(output[..n]) ==
             CallSet(output[..n - 1]) + if output[n - 1].ToolCall? then {output[n - 1].callID} else {} by {
        SnocCallSet(output, n);
      }
      StrictSnoc(items + output[..n - 1], output[n - 1]);
    }
  }

  lemma SnocCallSet(output: seq<Item>, n: nat)
    requires 0 < n <= |output|
    ensures CallSet(output[..n]) ==
            CallSet(output[..n - 1]) + if output[n - 1].ToolCall? then {output[n - 1].callID} else {}
  {
    var a, b := output[..n], output[..n - 1];
    forall i | 0 <= i < n - 1 ensures a[i] == b[i] {}
    assert a[n - 1] == output[n - 1];
    forall id | id in CallSet(a) ensures id in CallSet(b) || (output[n - 1].ToolCall? && output[n - 1].callID == id) {
      var i :| 0 <= i < |a| && a[i].ToolCall? && a[i].callID == id;
      if i < n - 1 { assert b[i].ToolCall? && b[i].callID == id; }
    }
    forall id | id in CallSet(b) ensures id in CallSet(a) {
      var i :| 0 <= i < |b| && b[i].ToolCall? && b[i].callID == id;
      assert a[i].ToolCall? && a[i].callID == id;
    }
  }

  /** Calls are never forgotten. */
  lemma {:induction false} LedgerGrows(items: seq<Item>, k: nat, m: nat)
    requires k <= m <= |items|
    ensures forall id :: id in Ledger(items, k) ==> id in Ledger(items, m)
  {
    if k < m { LedgerGrows(items, k, m - 1); }
  }

  /** A response goes in between what is committed and what is staged. */
  lemma InsertResponse(head: seq<Item>, output: seq<Item>, staged: seq<Item>)
    requires Strict(head + staged, |head + staged|) && Closable(head + staged, |head|)
    requires StagedByUser(staged)
    requires forall i :: 0 <= i < |output| ==> ItemSide(output[i]) == Some(Assistant)
    requires forall i :: 0 <= i < |output| && output[i].ToolCall? ==>
               output[i].callID !in Ledger(head + staged, |head + staged|)
    requires forall i, j :: 0 <= i < j < |output| && output[i].ToolCall? && output[j].ToolCall? ==>
               output[i].callID != output[j].callID
    ensures var c, d := head + staged, head + output + staged;
            && Strict(d, |d|) && Closable(d, |head + output|)
            && Adds(Ledger(c, |c|), Ledger(d, |d|), CallSet(output))
  {
    var c, more, d := head + staged, head + output, head + output + staged;
    StrictOfPrefix(c, head, |head|);
    LedgerGrows(c, |head|, |c|);
    assert output[..|output|] == output;
    ResponseStrict(head, output, |output|);
    StrictOfPrefix(more, d, |more|);
    TransplantUser(c, |head|, d, |more|, |staged|, CallSet(output));
  }

  lemma ClosableOfPrefix(a: seq<Item>, b: seq<Item>, k: nat, n: nat)
    requires k <= n && SamePrefix(a, b, n) && Strict(a, n)
    ensures Closable(a, k) <==> Closable(b, k)
  {
    StrictOfPrefix(a, b, k);
  }

  lemma AddModelResponseInv(s: State, r: Response)
    requires Inv(s) && ResponseFits(s, r.output)
    ensures Inv(AddModelResponse(s, r))
    ensures Adds(Now(s), Now(AddModelResponse(s, r)), CallSet(r.output))
  {
    hide Ledger, StrictAt, Closable, CallSet, Adds;
    var t := AddModelResponse(s, r);
    var head := s.committed[1..];
    var c, d := head + s.staged, head + r.output + s.staged;
    assert Conversation(s) == c;
    assert t.committed[1..] == head + r.output;
    InsertResponse(head, r.output, s.staged);
    assert SamePrefix(c, d, |head|);
    forall i | 0 <= i < |t.checkpoints| ensures Closable(d, t.checkpoints[i].end - 1) {
      if i < |s.checkpoints| { ClosableOfPrefix(c, d, s.checkpoints[i].end - 1, |head|); }
    }
  }

  // ------------------------------------------------------------- compaction

  /** The history a compaction summarizes and drops. */
  function Dropped(s: State): seq<Item>
    requires CheckpointsInRange(s) && Cutoff(s.checkpoints).Some?
  {
    s.committed[1..s.checkpoints[Cutoff(s.checkpoints).value].end]
  }

  /** The calls still open at the cutoff. */
  function PendingAtCutoff(s: State): PendingCalls
    requires CheckpointsInRange(s) && Cutoff(s.checkpoints).Some?
  {
    Collect(Dropped(s), 0, |Dropped(s)|)
  }

  /** What a compacted conversation starts with. */
  function Opening(s: State, r: Response): seq<Item>
    requires CheckpointsInRange(s) && Cutoff(s.checkpoints).Some?
  {
    CarryForward([UserItem(Summary(r.output, |r.output|))], PendingAtCutoff(s), |PendingAtCutoff(s).order|)
  }

  /** What is kept word for word. */
  function Retained(s: State): seq<Item>
    requires CheckpointsInRange(s) && Cutoff(s.checkpoints).Some?
  {
    s.committed[s.checkpoints[Cutoff(s.checkpoints).value].end..] + s.staged
  }

  /** Compaction exchanges the dropped history for the summary and the open calls, and
      touches nothing else. */
  lemma CompactReplaces(s: State, r: Response)
    requires CheckpointsInRange(s) && Cutoff(s.checkpoints).Some?
    requires s.committed[0] == SystemItem(s.preamble, s.systemPrompt)
    ensures Conversation(s) == Dropped(s) + Retained(s)
    ensures Compact(s, r).Some?
    ensures var t := Compact(s, r).value;
            && Conversation(t) == Opening(s, r) + Retained(s)
            && t.staged == s.staged && t.checkpoints == []
            && t.committed[0] == s.committed[0]
            && |t.committed| == 1 + |Opening(s, r)| + (|s.committed| - 1 - |Dropped(s)|)
            && t.model == s.model && t.tools == s.tools
            && t.preamble == s.preamble && t.systemPrompt == s.systemPrompt
  {
    var end := s.checkpoints[Cutoff(s.checkpoints).value].end;
    CollectShift(s.committed, Dropped(s), end - 1);
    var t := Compact(s, r).value;
    assert t.committed[1..] == Opening(s, r) + s.committed[end..];
  }

  lemma {:induction false} CarryForwardNonempty(staged: seq<Item>, p: PendingCalls, n: nat)
    requires n <= |p.order|
    ensures |CarryForward(staged, p, n)| >= |staged|
  {
    if n > 0 { CarryForwardNonempty(staged, p, n - 1); }
  }

  /** The opening may replace the dropped history. */
  predicate Replaces(opening: seq<Item>, dropped: seq<Item>) {
    && opening != []
    && Strict(opening, |opening|) && Closable(opening, |opening|)
    && Keeps(Ledger(dropped, |dropped|), Ledger(opening, |opening|))
    && Within(Ledger(opening, |opening|), Ledger(dropped, |dropped|))
  }

  /** The opening stands for the dropped history: strict, and with the same open calls. */
  lemma OpeningMeaning(s: State, r: Response)
    requires Inv(s) && Cutoff(s.checkpoints).Some?
    ensures var dropped, opening := Dropped(s), Opening(s, r);
            && Strict(dropped, |dropped|) && Closable(dropped, |dropped|)
            && Replaces(opening, dropped)
            && forall id :: id in Ledger(opening, |opening|) ==> Open(Ledger(opening, |opening|), id)
  {
    var dropped, opening := Dropped(s), Opening(s, r);
    var l, m := Ledger(dropped, |dropped|), Ledger(opening, |opening|);
    var p := PendingAtCutoff(s);
    StrictOfPrefix(Conversation(s), dropped, |dropped|);
    CarriedForward(dropped, |dropped|, Summary(r.output, |r.output|), |p.order|);
    CarryForwardNonempty([UserItem(Summary(r.output, |r.output|))], p, |p.order|);
    OrderMeaning(dropped, |dropped|);
    forall id | Open(l, id) ensures id in m {
      var i :| 0 <= i < |p.order| && p.order[i] == id;
    }
    forall id | id in m ensures Open(m, id) {
      var i :| 0 <= i < |p.order| && p.order[i] == id;
    }
  }

  /** The first `n` retained items stay strict after the opening. */
  lemma RetainedStrict(dropped: seq<Item>, opening: seq<Item>, retained: seq<Item>, n: nat)
    requires n <= |retained| && Strict(dropped + retained, |dropped + retained|) && Replaces(opening, dropped)
    ensures Strict(opening + retained, |opening| + n)
    ensures Keeps(Ledger(dropped + retained, |dropped| + n), Ledger(opening + retained, |opening| + n))
    ensures Within(Ledger(opening + retained, |opening| + n), Ledger(dropped + retained, |dropped| + n))
  {
    var c, d := dropped + retained, opening + retained;
    StrictOfPrefix(c, dropped, |dropped|);
    StrictOfPrefix(opening, d, |opening|);
    Transplant(c, |dropped|, d, |opening|, n);
  }

  lemma RetainedClosable(dropped: seq<Item>, opening: seq<Item>, retained: seq<Item>, n: nat)
    requires n <= |retained| && Strict(dropped + retained, |dropped + retained|) && Replaces(opening, dropped)
    requires Closable(dropped + retained, |dropped| + n)
    ensures Closable(opening + retained, |opening| + n)
  {
    RetainedStrict(dropped, opening, retained, n);
    if n > 0 {
      assert (opening + retained)[|opening| + n - 1] == (dropped + retained)[|dropped| + n - 1];
    } else {
      StrictOfPrefix(opening, opening + retained, |opening|);
    }
  }

  /** Compaction keeps the invariant and every open call. */
  lemma CompactInv(s: State, r: Response)
    requires Inv(s) && Cutoff(s.checkpoints).Some?
    ensures Inv(Compact(s, r).value)
    ensures Keeps(Now(s), Now(Compact(s, r).value)) && Within(Now(Compact(s, r).value), Now(s))
  {
    hide Cutoff, Compact, Strict, Ledger, Closable;
    CompactReplaces(s, r);
    OpeningMeaning(s, r);
    RetainedStrict(Dropped(s), Opening(s, r), Retained(s), |Retained(s)|);
    RetainedClosable(Dropped(s), Opening(s, r), Retained(s), |s.committed| - 1 - |Dropped(s)|);
  }

  // ------------------------------------------------------------ whole runs

  datatype Op =
    | StageText(text: string)
    | ChangeSettings(settings: Settings)
    | SetModel(model: Model)
    | AddTool(tool: Tool)
    | SetPrompt(prompt: string)
    | Respond(response: Response)
    | GiveResult(callID: string, payload: seq<Part>, running: bool)
    | DoCommit
    | DoCompact(response: Response)

  function Step(s: State, op: Op): State
    requires CheckpointsInRange(s)
  {
    match op
    case StageText(text) => StageUser(s, text)
    case ChangeSettings(settings) => ApplySettings(s, settings)
    case SetModel(model) => s.(model := model)
    case AddTool(tool) => s.(tools := s.tools + [tool])
    case SetPrompt(prompt) => SetSystemPrompt(s, prompt)
    case Respond(response) => AddModelResponse(s, response)
    case GiveResult(id, payload, running) => AddToolResult(s, id, payload, running)
    case DoCommit => Commit(s)
    case DoCompact(response) => (match Compact(s, response) case None => s case Some(t) => t)
  }

  /** The protocol: new call IDs, results only for calls that are still open, and a
      commit only when every call has some result. Compaction is always allowed. */
  predicate Allowed(s: State, op: Op)
    requires CheckpointsInRange(s)
  {
    match op
    case Respond(response) => ResponseFits(s, response.output)
    case GiveResult(id, _, _) => Open(Now(s), id)
    case DoCommit => AllHaveResult(Now(s))
    case _ => true
  }

  lemma StepInv(s: State, op: Op)
    requires Inv(s) && Allowed(s, op)
    ensures Inv(Step(s, op))
  {
    match op
    case StageText(text) => StageUserInv(s, text);
    case ChangeSettings(settings) => SettingsInv(s, settings);
    case SetModel(_) =>
    case AddTool(_) =>
    case SetPrompt(prompt) => assert Conversation(SetSystemPrompt(s, prompt)) == Conversation(s);
    case Respond(response) => AddModelResponseInv(s, response);
    case GiveResult(id, payload, running) => AddToolResultInv(s, id, payload, running);
    case DoCommit => CommitInv(s);
    case DoCompact(response) => if Cutoff(s.checkpoints).Some? { CompactInv(s, response); }
  }

  /** `t` is reached from `s` by operations the protocol allows. */
  predicate Reaches(s: State, ops: seq<Op>, t: State)
    requires CheckpointsInRange(s)
    decreases ops
  {
    if ops == [] then t == s
    else Allowed(s, ops[0]) && CheckpointsInRange(Step(s, ops[0])) && Reaches(Step(s, ops[0]), ops[1..], t)
  }

  lemma {:induction false} RunInv(s: State, ops: seq<Op>, t: State)
    requires Inv(s) && Reaches(s, ops, t)
    ensures Inv(t)
    decreases ops
  {
    if ops != [] {
      StepInv(s, ops[0]);
      RunInv(Step(s, ops[0]), ops[1..], t);
    }
  }

  /** An ordinary request is accepted exactly when it says something, every item can be
      encoded, and every call has a result. */
  lemma OrdinaryRequest(s: State)
    requires Inv(s)
    ensures MessagesRequest.Accepts(Build(s).input) <==>
              && Conversation(s) != []
              && MessagesRequest.AllEncodable(Conversation(s))
              && AllHaveResult(Now(s))
  {
    assert MessagesRequest.Body(Build(s).input) == Conversation(s);
    StrictIsSettled(Conversation(s));
  }

  /** A compaction request is accepted whenever the items it summarizes can be encoded. */
  lemma CompactionRequest(s: State, prompt: string)
    requires Inv(s) && Cutoff(s.checkpoints).Some?
    ensures BuildCompaction(s, prompt).Some?
    ensures MessagesRequest.Accepts(BuildCompaction(s, prompt).value.input) <==>
              MessagesRequest.AllEncodable(Dropped(s))
  {
    var end := s.checkpoints[Cutoff(s.checkpoints).value].end;
    var history := Dropped(s);
    CollectShift(s.committed, history, end - 1);
    StrictOfPrefix(Conversation(s), history, |history|);
    SummarizerInputSettled(history);
    var p := Collect(history, 0, |history|);
    assert MessagesRequest.Body(BuildCompaction(s, prompt).value.input) ==
           MissingResults(history, p, |p.order|) + [UserItem(COMPACTION_REQUEST)];
  }

  /** Whatever a protocol-following run has done, with any number of compactions in it,
      no request it can build is refused for its order: an ordinary request may be
      sent whenever a commit may, and a compaction request always. */
  lemma EveryRequestAccepted(preamble: string, ops: seq<Op>, s: State, prompt: string)
    requires Reaches(NewBuilder(preamble), ops, s)
    requires s.committed != [] && MessagesRequest.AllEncodable(Conversation(s))
    ensures CheckpointsInRange(s)
    ensures Conversation(s) != [] && Allowed(s, DoCommit) ==> MessagesRequest.Accepts(Build(s).input)
    ensures Cutoff(s.checkpoints).Some? ==>
              && BuildCompaction(s, prompt).Some?
              && MessagesRequest.Accepts(BuildCompaction(s, prompt).value.input)
  {
    hide MessagesRequest.Accepts, Inv, BuildCompaction, Cutoff, Reaches, AllHaveResult, Ledger;
    NewBuilderInv(preamble);
    InvInRange(NewBuilder(preamble));
    RunInv(NewBuilder(preamble), ops, s);
    InvInRange(s);
    OrdinaryRequest(s);
    if Cutoff(s.checkpoints).Some? {
      CompactionRequest(s, prompt);
      CompactReplaces(s, Response([], 0, 0, true));
      forall i | 0 <= i < |Dropped(s)| ensures MessagesRequest.Encodable(Dropped(s)[i]) {
        assert Dropped(s)[i] == Conversation(s)[i];
      }
    }
  }

  lemma InvInRange(s: State)
    requires Inv(s)
    ensures CheckpointsInRange(s) && s.committed[0] == SystemItem(s.preamble, s.systemPrompt)
  {
  }

  /** Operations that can arrive while a summary is being written. */
  predicate Meanwhile(op: Op) {
    op.StageText? || op.ChangeSettings? || op.GiveResult? || op.DoCommit?
  }

  /** Compaction drops exactly the history that was summarized, whatever inputs, results,
      settings and commits arrived in between; a change of model calls it off. */
  lemma {:induction false} DropsWhatWasSummarized(s: State, ops: seq<Op>, t: State)
    requires Inv(s) && Cutoff(s.checkpoints).Some? && Reaches(s, ops, t)
    requires forall i :: 0 <= i < |ops| ==> Meanwhile(ops[i])
    ensures CheckpointsInRange(t)
    ensures t.checkpoints == [] || (Cutoff(t.checkpoints) == Cutoff(s.checkpoints) && Dropped(t) == Dropped(s))
    ensures t.checkpoints == [] ==> forall r :: Compact(t, r).None?
    decreases ops
  {
    if ops != [] {
      var next := Step(s, ops[0]);
      StepInv(s, ops[0]);
      if next.checkpoints == [] {
        NoCheckpointsStay(next, ops[1..], t);
      } else {
        DroppedKept(s, ops[0]);
        DropsWhatWasSummarized(next, ops[1..], t);
      }
    }
  }

  lemma DroppedKept(s: State, op: Op)
    requires Inv(s) && Cutoff(s.checkpoints).Some? && Meanwhile(op)
    requires Step(s, op).checkpoints != [] && CheckpointsInRange(Step(s, op))
    ensures Step(s, op).checkpoints == s.checkpoints && Dropped(Step(s, op)) == Dropped(s)
  {
    var end := s.checkpoints[Cutoff(s.checkpoints).value].end;
    assert Step(s, op).committed[1..end] == s.committed[1..end];
  }

  lemma {:induction false} NoCheckpointsStay(s: State, ops: seq<Op>, t: State)
    requires CheckpointsInRange(s) && s.checkpoints == [] && Reaches(s, ops, t)
    requires forall i :: 0 <= i < |ops| ==> Meanwhile(ops[i])
    ensures CheckpointsInRange(t) && t.checkpoints == []
    decreases ops
  {
    if ops != [] { NoCheckpointsStay(Step(s, ops[0]), ops[1..], t); }
  }
}
