/**
  The Messages request encoder (harness/llm/messagesapi/request.go): a strict
  acceptor that groups items by speaker, demands that every tool call is answered
  in the next user group, and emits each result exactly once.

  `RequestInput` is the source's loop. It is proved against two independent
  definitions: `Accepts`, an automaton that looks at one item at a time and knows
  no groups and no pending list, and `Render`, which says what each group becomes
  in terms of the whole input and not of the loop's variables.
 */
module MessagesRequest {
  import opened Llm

  /** `Label` is the text block `"name" (call "id", running|completed)`. */
  datatype Block =
    | TextBlock(text: string)
    | ImageBlock(source: string)
    | ToolUse(id: string, name: string, input: Arguments)
    | Answer(id: string, content: seq<Block>)
    | Label(name: string, callID: string, running: bool)
    | RawBlock(raw: string)

  datatype InputMessage = InputMessage(side: Side, content: seq<Block>)

  datatype Error =
    | BadItem(index: nat)
    | DuplicateCall(index: nat)
    | UnknownCall(index: nat)
    | MissingResult(callID: string)
    | MissingResults(callIDs: seq<string>)
    | EmptyMessages

  datatype Result<T> = Ok(value: T) | Err(error: Error)

  datatype Encoded = Encoded(messages: seq<InputMessage>, system: Option<string>)

  // ---------------------------------------------------------------- content

  /** requestToolOutput. */
  function OutputBlocks(output: seq<Part>): Option<seq<Block>> {
    if output == [] then Some([])
    else
      match (output[0], OutputBlocks(output[1..]))
      case (TextPart(value), Some(rest)) => Some([TextBlock(value)] + rest)
      case (ImagePart(source, true), Some(rest)) => Some([ImageBlock(source)] + rest)
      case _ => None
  }

  /** requestInputBlock, for an item on the assistant's side. */
  function AssistantBlock(item: Item): Option<Block>
    requires ItemSide(item) == Some(Assistant)
  {
    match item
    case Message(_, text) => Some(TextBlock(text))
    case ToolCall(id, name, arguments) =>
      if id == "" || name == "" || arguments.BadObject? then None
      else Some(ToolUse(id, name, arguments))
    case Provider(raw, _) => Some(RawBlock(raw))
  }

  /** The item by itself can be encoded, wherever it stands. */
  predicate Encodable(item: Item) {
    match ItemSide(item)
    case None => false
    case Some(Assistant) => AssistantBlock(item).Some?
    case Some(User) => item.ToolResult? ==> OutputBlocks(item.output).Some?
  }

  // ------------------------------------------------- which inputs are accepted

  /** The tool name of each call among the first `k` items. */
  function Names(items: seq<Item>, k: nat): map<string, string>
    requires k <= |items|
  {
    if k == 0 then map[]
    else if items[k - 1].ToolCall? then Names(items, k - 1)[items[k - 1].callID := items[k - 1].name]
    else Names(items, k - 1)
  }

  /** For each call ID with a result among the first `k` items, the output of its first one. */
  function FirstAnswers(items: seq<Item>, k: nat): map<string, seq<Part>>
    requires k <= |items|
  {
    if k == 0 then map[]
    else if items[k - 1].ToolResult? && items[k - 1].callID !in FirstAnswers(items, k - 1)
    then FirstAnswers(items, k - 1)[items[k - 1].callID := items[k - 1].output]
    else FirstAnswers(items, k - 1)
  }

  /** Every call among the first `k` items has a result among them. */
  predicate AllAnswered(items: seq<Item>, k: nat)
    requires k <= |items|
  {
    forall id :: id in Names(items, k) ==> id in FirstAnswers(items, k)
  }

  /** Item `i` may stand where it does: the assistant speaks after the user only when
      every call so far has a result, a call ID is new, a result is for a known call. */
  predicate FitsAt(items: seq<Item>, i: nat)
    requires i < |items|
  {
    match ItemSide(items[i])
    case None => false
    case Some(User) => items[i].ToolResult? ==> items[i].callID in Names(items, i)
    case Some(Assistant) =>
      && (i > 0 && ItemSide(items[i - 1]) == Some(User) ==> AllAnswered(items, i))
      && (items[i].ToolCall? ==> items[i].callID !in Names(items, i))
  }

  predicate WellOrdered(items: seq<Item>, k: nat)
    requires k <= |items|
  {
    forall i :: 0 <= i < k ==> FitsAt(items, i)
  }

  /** Well ordered, and nothing is left unanswered at the end. */
  predicate Settled(items: seq<Item>, k: nat)
    requires k <= |items|
  {
    WellOrdered(items, k) && AllAnswered(items, k)
  }

  predicate HasSystem(items: seq<Item>) {
    items != [] && items[0].Message? && items[0].role.RoleSystem?
  }

  function Body(items: seq<Item>): seq<Item> {
    if HasSystem(items) then items[1..] else items
  }

  predicate AllEncodable(items: seq<Item>) {
    forall i :: 0 <= i < |items| ==> Encodable(items[i])
  }

  predicate Accepts(items: seq<Item>) {
    && Body(items) != []
    && AllEncodable(Body(items))
    && Settled(Body(items), |Body(items)|)
  }

  // ------------------------------------------------------ what they turn into

  function Content(output: seq<Part>): seq<Block> {
    match OutputBlocks(output)
    case Some(blocks) => blocks
    case None => []
  }

  /** What an item on the user's side adds as ordinary content: the first result of
      a call adds nothing here, every later one is labelled. */
  function OrdinaryBlocks(names: map<string, string>, answers: map<string, seq<Part>>, item: Item): seq<Block> {
    match item
    case Message(RoleUser, text) => [TextBlock(text)]
    case ToolResult(id, output, running) =>
      if id in answers && id in names then [Label(names[id], id, running)] + Content(output) else []
    case _ => []
  }

  /** The ordinary content of `items[a..b]`. */
  function Ordinary(items: seq<Item>, a: nat, b: nat): seq<Block>
    requires a <= b <= |items|
  {
    if a == b then []
    else Ordinary(items, a, b - 1) + OrdinaryBlocks(Names(items, b - 1), FirstAnswers(items, b - 1), items[b - 1])
  }

  /** The tool_result blocks for the first `n` of `ids`, each with its first recorded output. */
  function Answers(answers: map<string, seq<Part>>, ids: seq<string>, n: nat): seq<Block>
    requires n <= |ids|
  {
    if n == 0 then []
    else if ids[n - 1] in answers
    then Answers(answers, ids, n - 1) + [Answer(ids[n - 1], Content(answers[ids[n - 1]]))]
    else Answers(answers, ids, n - 1)
  }

  function AnswersFor(answers: map<string, seq<Part>>, ids: seq<string>): seq<Block> {
    Answers(answers, ids, |ids|)
  }

  /** The blocks of the assistant's items among `items[a..b]`. */
  function AssistantBlocks(items: seq<Item>, a: nat, b: nat): seq<Block>
    requires a <= b <= |items|
  {
    if a == b then []
    else if ItemSide(items[b - 1]) == Some(Assistant) && AssistantBlock(items[b - 1]).Some?
    then AssistantBlocks(items, a, b - 1) + [AssistantBlock(items[b - 1]).value]
    else AssistantBlocks(items, a, b - 1)
  }

  /** Where the last maximal run of one side among the first `k` items begins. */
  function RunStart(items: seq<Item>, k: nat): (a: nat)
    requires 0 < k <= |items|
    ensures a < k
  {
    if k == 1 || ItemSide(items[k - 2]) != ItemSide(items[k - 1]) then k - 1 else RunStart(items, k - 1)
  }

  /** The calls of the last run of the first `k` items. */
  function Asked(items: seq<Item>, k: nat): seq<string>
    requires k <= |items|
  {
    if k == 0 then [] else CallIDs(items, RunStart(items, k), k)
  }

  /** The message for the group `items[a..k]`. */
  function RenderGroup(items: seq<Item>, a: nat, k: nat): InputMessage
    requires a < k <= |items|
  {
    if ItemSide(items[a]) == Some(Assistant) then InputMessage(Assistant, AssistantBlocks(items, a, k))
    else InputMessage(User, AnswersFor(FirstAnswers(items, k), Asked(items, a)) + Ordinary(items, a, k))
  }

  /** The messages for the first `k` items. */
  function Render(items: seq<Item>, k: nat): seq<InputMessage>
    requires k <= |items|
  {
    if k == 0 then []
    else Render(items, RunStart(items, k)) + [RenderGroup(items, RunStart(items, k), k)]
  }

  // --------------------------------------------------- facts about the reading

  /** Only known calls are answered. */
  lemma {:induction false} AnsweredAreKnown(items: seq<Item>, k: nat)
    requires k <= |items| && WellOrdered(items, k)
    ensures forall id :: id in FirstAnswers(items, k) ==> id in Names(items, k)
  {
    if k > 0 {
      assert FitsAt(items, k - 1);
      AnsweredAreKnown(items, k - 1);
    }
  }

  lemma {:induction false} NamesAreCalls(items: seq<Item>, k: nat)
    requires k <= |items|
    ensures forall id :: id in Names(items, k) <==> id in CallIDs(items, 0, k)
  {
    if k > 0 { NamesAreCalls(items, k - 1); }
  }

  /** The output kept for a call is that of its first result, and there is none exactly if the
      call has no result. */
  lemma FirstAnswerIsFirst(items: seq<Item>, id: string, k: nat)
    requires k <= |items|
    ensures id in FirstAnswers(items, k) <==> exists i :: 0 <= i < k && IsFirstResult(items, i, id)
    ensures forall i :: 0 <= i < k && IsFirstResult(items, i, id) ==> id in FirstAnswers(items, k) && FirstAnswers(items, k)[id] == items[i].output
  {
    forall i | 0 <= i < k && IsFirstResult(items, i, id) ensures id in FirstAnswers(items, k) && FirstAnswers(items, k)[id] == items[i].output {
      FirstResultKept(items, i, k);
    }
    if forall i :: 0 <= i < k ==> !(items[i].ToolResult? && items[i].callID == id) {
      NotYetAnswered(items, id, k);
    } else {
      var i := FirstResultOf(items, id, k);
    }
  }

  /** Item `i` is the earliest result with this ID. */
  predicate IsFirstResult(items: seq<Item>, i: nat, id: string)
    requires i < |items|
  {
    && items[i].ToolResult? && items[i].callID == id
    && forall j :: 0 <= j < i ==> !(items[j].ToolResult? && items[j].callID == id)
  }

  lemma {:induction false} FirstResultOf(items: seq<Item>, id: string, k: nat) returns (i: nat)
    requires k <= |items| && exists j :: 0 <= j < k && items[j].ToolResult? && items[j].callID == id
    ensures i < k && IsFirstResult(items, i, id)
  {
    if exists j :: 0 <= j < k - 1 && items[j].ToolResult? && items[j].callID == id { i := FirstResultOf(items, id, k - 1); } else { i := k - 1; }
  }

  lemma {:induction false} FirstResultKept(items: seq<Item>, i: nat, k: nat)
    requires i < k <= |items| && items[i].ToolResult?
    requires forall j :: 0 <= j < i ==> !(items[j].ToolResult? && items[j].callID == items[i].callID)
    ensures items[i].callID in FirstAnswers(items, k)
    ensures FirstAnswers(items, k)[items[i].callID] == items[i].output
  {
    if i < k - 1 { FirstResultKept(items, i, k - 1); } else { NotYetAnswered(items, items[i].callID, i); }
  }

  lemma {:induction false} NotYetAnswered(items: seq<Item>, id: string, k: nat)
    requires k <= |items|
    requires forall j :: 0 <= j < k ==> !(items[j].ToolResult? && items[j].callID == id)
    ensures id !in FirstAnswers(items, k)
  {
    if k > 0 { NotYetAnswered(items, id, k - 1); }
  }

  /** Reading on never changes an answer. */
  lemma {:induction false} AnswersGrow(items: seq<Item>, k: nat, m: nat)
    requires k <= m <= |items|
    ensures forall id :: id in FirstAnswers(items, k) ==>
              id in FirstAnswers(items, m) && FirstAnswers(items, m)[id] == FirstAnswers(items, k)[id]
  {
    if k < m { AnswersGrow(items, k, m - 1); }
  }

  /** An assistant run starts only after every earlier call has been answered. */
  lemma AnsweredBeforeAssistant(items: seq<Item>, a: nat)
    requires a < |items| && FitsAt(items, a) && ItemSide(items[a]) == Some(Assistant)
    requires a > 0 ==> FitsAt(items, a - 1) && ItemSide(items[a - 1]) != Some(Assistant)
    ensures AllAnswered(items, a)
  {
  }

  /** The last run is uniform and maximal. */
  lemma {:induction false} RunIsMaximal(items: seq<Item>, k: nat)
    requires 0 < k <= |items|
    ensures forall i :: RunStart(items, k) <= i < k ==> ItemSide(items[i]) == ItemSide(items[k - 1])
    ensures RunStart(items, k) > 0 ==> ItemSide(items[RunStart(items, k) - 1]) != ItemSide(items[k - 1])
  {
    if k > 1 && ItemSide(items[k - 2]) == ItemSide(items[k - 1]) { RunIsMaximal(items, k - 1); }
  }

  // --------------------------------------------------------------- the loops

  datatype RequestCall = RequestCall(name: string, answered: bool)

  /** The call table the source keeps after the first `k` items. */
  function Table(items: seq<Item>, k: nat): map<string, RequestCall>
    requires k <= |items|
  {
    map id | id in Names(items, k) :: RequestCall(Names(items, k)[id], id in FirstAnswers(items, k))
  }

  /** The results map of one user group. */
  function NewAnswers(items: seq<Item>, start: nat, k: nat): map<string, Block>
    requires start <= k <= |items|
  {
    map id | id in FirstAnswers(items, k) && id !in FirstAnswers(items, start) ::
      Answer(id, Content(FirstAnswers(items, k)[id]))
  }

  /** The loop invariant of ReadUserItems: `items[start..index]` has been read. */
  ghost predicate UserLoop(items: seq<Item>, start: nat, index: nat, calls: map<string, RequestCall>,
                           results: map<string, Block>, ordinary: seq<Block>)
    requires start <= index <= |items|
  {
    && WellOrdered(items, index)
    && Names(items, index) == Names(items, start)
    && calls == Table(items, index)
    && results == NewAnswers(items, start, index)
    && ordinary == Ordinary(items, start, index)
  }

  lemma UserLoopMessage(items: seq<Item>, start: nat, index: nat, calls: map<string, RequestCall>,
                        results: map<string, Block>, ordinary: seq<Block>)
    requires start <= index < |items| && UserLoop(items, start, index, calls, results, ordinary)
    requires ItemSide(items[index]) == Some(User) && items[index].Message?
    ensures UserLoop(items, start, index + 1, calls, results, ordinary + [TextBlock(items[index].text)])
  {
  }

  lemma UserLoopFirst(items: seq<Item>, start: nat, index: nat, calls: map<string, RequestCall>,
                      results: map<string, Block>, ordinary: seq<Block>)
    requires start <= index < |items| && UserLoop(items, start, index, calls, results, ordinary)
    requires items[index].ToolResult? && OutputBlocks(items[index].output).Some?
    requires items[index].callID in calls && !calls[items[index].callID].answered
    ensures var id := items[index].callID;
            UserLoop(items, start, index + 1, calls[id := calls[id].(answered := true)],
                     results[id := Answer(id, OutputBlocks(items[index].output).value)], ordinary)
  {
    AnswersGrow(items, start, index);
    assert ordinary + [] == ordinary;
    var id := items[index].callID;
    assert calls[id := calls[id].(answered := true)] == Table(items, index + 1);
    assert results[id := Answer(id, OutputBlocks(items[index].output).value)] == NewAnswers(items, start, index + 1);
  }

  /** A repeated result is labelled with the name of its call. */
  lemma UserLoopLater(items: seq<Item>, start: nat, index: nat, calls: map<string, RequestCall>,
                      results: map<string, Block>, ordinary: seq<Block>)
    requires start <= index < |items| && UserLoop(items, start, index, calls, results, ordinary)
    requires items[index].ToolResult? && OutputBlocks(items[index].output).Some?
    requires items[index].callID in calls && calls[items[index].callID].answered
    ensures var id := items[index].callID;
            UserLoop(items, start, index + 1, calls, results,
                     ordinary + ([Label(calls[id].name, id, items[index].running)] + OutputBlocks(items[index].output).value))
  {
  }

  /** The pending list holds exactly the unanswered calls of the first `k` items. */
  ghost predicate ArePending(pending: seq<string>, items: seq<Item>, k: nat)
    requires k <= |items|
  {
    forall id :: id in pending <==> id in Names(items, k) && id !in FirstAnswers(items, k)
  }

  /** At the end of a user group the pending calls decide whether all are answered. */
  lemma GroupSettles(items: seq<Item>, start: nat, end: nat, calls: map<string, RequestCall>,
                     results: map<string, Block>, ordinary: seq<Block>, pending: seq<string>)
    requires start < end <= |items| && UserLoop(items, start, end, calls, results, ordinary)
    requires ArePending(pending, items, start)
    ensures AllAnswered(items, end) <==> forall id :: id in pending ==> id in results
    ensures forall id :: id in results ==>
              id in FirstAnswers(items, end) && results[id] == Answer(id, Content(FirstAnswers(items, end)[id]))
  {
    AnswersGrow(items, start, end);
    if forall id :: id in pending ==> id in results {
      forall id | id in Names(items, end) ensures id in FirstAnswers(items, end) {
        if id !in FirstAnswers(items, start) { assert id in pending; }
      }
    } else {
      var id :| id in pending && id !in results;
      assert id in Names(items, end) && id !in FirstAnswers(items, end);
    }
  }

  /** The loop of requestUserItems over the group `items[start..end]`. */
  method ReadUserItems(items: seq<Item>, start: nat, end: nat, calls: map<string, RequestCall>)
    returns (r: Result<seq<Block>>, results: map<string, Block>, updated: map<string, RequestCall>)
    requires start < end <= |items|
    requires forall i :: start <= i < end ==> ItemSide(items[i]) == Some(User)
    requires UserLoop(items, start, start, calls, map[], [])
    ensures r.Ok? ==>
              && (forall i :: start <= i < end ==> Encodable(items[i]))
              && UserLoop(items, start, end, updated, results, r.value)
    ensures r.Err? ==>
              || (exists i :: start <= i < end && !Encodable(items[i]))
              || !WellOrdered(items, end)
  {
    results := map[];
    updated := calls;
    var ordinary: seq<Block> := [];
    var index := start;
    while index < end
      invariant start <= index <= end
      invariant forall i :: start <= i < index ==> Encodable(items[i])
      invariant UserLoop(items, start, index, updated, results, ordinary)
    {
      var item := items[index];
      if item.Message? {
        UserLoopMessage(items, start, index, updated, results, ordinary);
        ordinary := ordinary + [TextBlock(item.text)];
        index := index + 1;
        continue;
      }
      var id := item.callID;
      if id !in updated {
        assert !FitsAt(items, index);
        return Err(UnknownCall(index)), results, updated;
      }
      var output := OutputBlocks(item.output);
      if output.None? {
        assert !Encodable(items[index]);
        return Err(BadItem(index)), results, updated;
      }
      var call := updated[id];
      if !call.answered {
        UserLoopFirst(items, start, index, updated, results, ordinary);
        results := results[id := Answer(id, output.value)];
        updated := updated[id := call.(answered := true)];
        index := index + 1;
        continue;
      }
      UserLoopLater(items, start, index, updated, results, ordinary);
      ordinary := ordinary + ([Label(call.name, id, item.running)] + output.value);
      index := index + 1;
    }
    r := Ok(ordinary);
  }

  /** The results of the pending calls, in call order. */
  method CollectAnswers(ghost answers: map<string, seq<Part>>, results: map<string, Block>, pending: seq<string>)
    returns (r: Result<seq<Block>>)
    requires forall id :: id in results ==> id in answers && results[id] == Answer(id, Content(answers[id]))
    ensures r.Ok? <==> forall id :: id in pending ==> id in results
    ensures r.Ok? ==> r.value == AnswersFor(answers, pending)
  {
    var blocks: seq<Block> := [];
    for p := 0 to |pending|
      invariant forall i :: 0 <= i < p ==> pending[i] in results
      invariant blocks == Answers(answers, pending, p)
    {
      var id := pending[p];
      if id !in results {
        return Err(MissingResult(id));
      }
      blocks := blocks + [results[id]];
    }
    r := Ok(blocks);
  }

  /** requestUserItems: the group `items[start..end]`. The call table and the
      pending list are the caller's; the updated table is returned. */
  method RequestUserItems(items: seq<Item>, start: nat, end: nat, calls: map<string, RequestCall>, pending: seq<string>)
    returns (r: Result<seq<Block>>, updated: map<string, RequestCall>)
    requires start < end <= |items|
    requires forall i :: start <= i < end ==> ItemSide(items[i]) == Some(User)
    requires WellOrdered(items, start) && ArePending(pending, items, start) && calls == Table(items, start)
    ensures r.Ok? ==>
              && (forall i :: start <= i < end ==> Encodable(items[i]))
              && Settled(items, end)
              && updated == Table(items, end)
              && r.value == AnswersFor(FirstAnswers(items, end), pending) + Ordinary(items, start, end)
    ensures r.Err? ==>
              || (exists i :: start <= i < end && !Encodable(items[i]))
              || !Settled(items, end)
  {
    var ordinary, results, table := ReadUserItems(items, start, end, calls);
    updated := table;
    if ordinary.Err? { return ordinary, updated; }
    GroupSettles(items, start, end, updated, results, ordinary.value, pending);
    var blocks := CollectAnswers(FirstAnswers(items, end), results, pending);
    if blocks.Err? { return blocks, updated; }
    r := Ok(blocks.value + ordinary.value);
  }

  /** The loop invariant of RequestAssistantItems: `items[start..index]` has been read. */
  ghost predicate AssistantLoop(items: seq<Item>, start: nat, index: nat, calls: map<string, RequestCall>,
                                pending: seq<string>, blocks: seq<Block>)
    requires start <= index <= |items|
  {
    && WellOrdered(items, index)
    && (index > 0 && ItemSide(items[index - 1]) == Some(User) ==> AllAnswered(items, index))
    && calls == Table(items, index)
    && pending == CallIDs(items, start, index)
    && blocks == AssistantBlocks(items, start, index)
  }

  lemma AssistantLoopCall(items: seq<Item>, start: nat, index: nat, calls: map<string, RequestCall>,
                          pending: seq<string>, blocks: seq<Block>)
    requires start <= index < |items| && AssistantLoop(items, start, index, calls, pending, blocks)
    requires items[index].ToolCall? && AssistantBlock(items[index]).Some?
    requires items[index].callID !in calls
    ensures AssistantLoop(items, start, index + 1, calls[items[index].callID := RequestCall(items[index].name, false)],
                          pending + [items[index].callID], blocks + [AssistantBlock(items[index]).value])
  {
    AnsweredAreKnown(items, index);
    assert calls[items[index].callID := RequestCall(items[index].name, false)] == Table(items, index + 1);
  }

  /** The assistant branch of requestInput: the group `items[start..end]`. */
  method RequestAssistantItems(items: seq<Item>, start: nat, end: nat, calls: map<string, RequestCall>)
    returns (r: Result<seq<Block>>, updated: map<string, RequestCall>, pending: seq<string>)
    requires start < end <= |items|
    requires forall i :: start <= i < end ==> ItemSide(items[i]) == Some(Assistant)
    requires AssistantLoop(items, start, start, calls, [], [])
    ensures r.Ok? ==>
              && (forall i :: start <= i < end ==> Encodable(items[i]))
              && AssistantLoop(items, start, end, updated, pending, r.value)
    ensures r.Err? ==>
              || (exists i :: start <= i < end && !Encodable(items[i]))
              || !WellOrdered(items, end)
  {
    updated := calls;
    pending := [];
    var blocks: seq<Block> := [];
    var index := start;
    while index < end
      invariant start <= index <= end
      invariant forall i :: start <= i < index ==> Encodable(items[i])
      invariant AssistantLoop(items, start, index, updated, pending, blocks)
    {
      var item := items[index];
      var block := AssistantBlock(item);
      if block.None? {
        assert !Encodable(items[index]);
        return Err(BadItem(index)), updated, pending;
      }
      if item.ToolCall? {
        if item.callID in updated {
          assert !FitsAt(items, index);
          return Err(DuplicateCall(index)), updated, pending;
        }
        AssistantLoopCall(items, start, index, updated, pending, blocks);
        updated := updated[item.callID := RequestCall(item.name, false)];
        pending := pending + [item.callID];
      }
      blocks := blocks + [block.value];
      index := index + 1;
    }
    r := Ok(blocks);
  }

  /** `k` is a boundary between groups (or an end of the input). */
  predicate Boundary(items: seq<Item>, k: nat)
    requires k <= |items|
  {
    0 < k < |items| ==> ItemSide(items[k]) != ItemSide(items[k - 1])
  }

  /** `items[start..end]` is one whole group. */
  predicate IsGroup(items: seq<Item>, start: nat, end: nat) {
    && start < end <= |items|
    && (forall i :: start <= i < end ==> ItemSide(items[i]) == ItemSide(items[start]))
    && Boundary(items, start) && Boundary(items, end)
  }

  lemma {:induction false} GroupIsLastRun(items: seq<Item>, start: nat, end: nat)
    requires start < end <= |items| && Boundary(items, start)
    requires forall i :: start <= i < end ==> ItemSide(items[i]) == ItemSide(items[start])
    ensures RunStart(items, end) == start
  {
    if start + 1 < end { GroupIsLastRun(items, start, end - 1); }
  }

  /** The loop invariant of RequestInput: the groups before `start` have been encoded. */
  ghost predicate GroupLoop(items: seq<Item>, start: nat, calls: map<string, RequestCall>,
                            pending: seq<string>, messages: seq<InputMessage>)
    requires start <= |items|
  {
    && Boundary(items, start)
    && (forall i :: 0 <= i < start ==> Encodable(items[i]))
    && WellOrdered(items, start) && ArePending(pending, items, start)
    && pending == (if start > 0 && ItemSide(items[start - 1]) == Some(User) then [] else Asked(items, start))
    && calls == Table(items, start)
    && (start == 0 <==> messages == [])
    && messages == Render(items, start)
  }

  lemma {:induction false} AssistantRunPending(items: seq<Item>, start: nat, k: nat)
    requires start <= k <= |items| && WellOrdered(items, k) && AllAnswered(items, start)
    requires forall i :: start <= i < k ==> ItemSide(items[i]) == Some(Assistant)
    ensures ArePending(CallIDs(items, start, k), items, k)
  {
    AnsweredAreKnown(items, start);
    if start < k {
      AssistantRunPending(items, start, k - 1);
      AnsweredAreKnown(items, k - 1);
      assert FitsAt(items, k - 1);
    }
  }

  lemma AssistantGroup(items: seq<Item>, start: nat, end: nat, calls: map<string, RequestCall>, pending: seq<string>,
                       messages: seq<InputMessage>, updated: map<string, RequestCall>, asked: seq<string>, blocks: seq<Block>)
    requires IsGroup(items, start, end) && ItemSide(items[start]) == Some(Assistant)
    requires forall i :: start <= i < end ==> Encodable(items[i])
    requires GroupLoop(items, start, calls, pending, messages)
    requires AssistantLoop(items, start, end, updated, asked, blocks)
    ensures GroupLoop(items, end, updated, asked, messages + [InputMessage(Assistant, blocks)])
  {
    GroupIsLastRun(items, start, end);
    assert FitsAt(items, start) && (start > 0 ==> FitsAt(items, start - 1));
    AnsweredBeforeAssistant(items, start);
    AssistantRunPending(items, start, end);
  }

  lemma UserGroup(items: seq<Item>, start: nat, end: nat, calls: map<string, RequestCall>, pending: seq<string>,
                  messages: seq<InputMessage>, updated: map<string, RequestCall>)
    requires IsGroup(items, start, end) && ItemSide(items[start]) == Some(User)
    requires forall i :: start <= i < end ==> Encodable(items[i])
    requires GroupLoop(items, start, calls, pending, messages)
    requires Settled(items, end) && updated == Table(items, end)
    ensures GroupLoop(items, end, updated, [], messages +
              [InputMessage(User, AnswersFor(FirstAnswers(items, end), pending) + Ordinary(items, start, end))])
  {
    GroupIsLastRun(items, start, end);
  }

  /** A user group that leaves a call unanswered spoils the whole input. */
  lemma UnsettledGroup(items: seq<Item>, end: nat)
    requires 0 < end <= |items| && ItemSide(items[end - 1]) == Some(User) && Boundary(items, end)
    ensures Settled(items, |items|) ==> Settled(items, end)
  {
    if end < |items| && Settled(items, |items|) {
      assert FitsAt(items, end);
    }
  }

  /** The inner loop of requestInput: the end of the group that begins at `start`. */
  method GroupEnd(items: seq<Item>, start: nat, side: Side) returns (r: Result<nat>)
    requires start < |items| && ItemSide(items[start]) == Some(side) && Boundary(items, start)
    ensures r.Ok? ==> IsGroup(items, start, r.value)
    ensures r.Err? ==> exists i :: start <= i < |items| && !Encodable(items[i])
  {
    var end := start + 1;
    while end < |items|
      invariant start < end <= |items|
      invariant forall i :: start <= i < end ==> ItemSide(items[i]) == Some(side)
    {
      var nextSide := ItemSide(items[end]);
      if nextSide.None? {
        assert !Encodable(items[end]);
        return Err(BadItem(end));
      }
      if nextSide != Some(side) { return Ok(end); }
      end := end + 1;
    }
    r := Ok(end);
  }

  ghost predicate Unacceptable(items: seq<Item>) {
    !AllEncodable(items) || !Settled(items, |items|)
  }

  /** One iteration of requestInput's outer loop: the group that begins at `start`. */
  method RequestGroup(items: seq<Item>, start: nat, calls: map<string, RequestCall>, pending: seq<string>,
                      ghost messages: seq<InputMessage>)
    returns (r: Result<InputMessage>, end: nat, updated: map<string, RequestCall>, asked: seq<string>)
    requires start < |items| && GroupLoop(items, start, calls, pending, messages)
    ensures r.Ok? ==> start < end <= |items| && GroupLoop(items, end, updated, asked, messages + [r.value])
    ensures r.Err? ==> Unacceptable(items)
  {
    end, updated, asked := start, calls, pending;
    var side := ItemSide(items[start]);
    if side.None? {
      assert !Encodable(items[start]);
      return Err(BadItem(start)), end, updated, asked;
    }
    var found := GroupEnd(items, start, side.value);
    if found.Err? { return Err(found.error), end, updated, asked; }
    end := found.value;
    var blocks: Result<seq<Block>>;
    if side.value == Assistant {
      AssistantMayStart(items, start, calls, pending, messages);
      blocks, updated, asked := RequestAssistantItems(items, start, end, calls);
      if blocks.Err? { return Err(blocks.error), end, updated, asked; }
      AssistantGroup(items, start, end, calls, pending, messages, updated, asked, blocks.value);
    } else {
      blocks, updated := RequestUserItems(items, start, end, calls, pending);
      if blocks.Err? {
        if !Settled(items, end) { UnsettledGroup(items, end); }
        return Err(blocks.error), end, updated, asked;
      }
      UserGroup(items, start, end, calls, pending, messages, updated);
      asked := [];
    }
    r := Ok(InputMessage(side.value, blocks.value));
  }

  lemma AssistantMayStart(items: seq<Item>, start: nat, calls: map<string, RequestCall>, pending: seq<string>,
                          messages: seq<InputMessage>)
    requires start <= |items| && GroupLoop(items, start, calls, pending, messages)
    ensures AssistantLoop(items, start, start, calls, [], [])
  {
    if start > 0 && ItemSide(items[start - 1]) == Some(User) { AnsweredAreKnown(items, start); }
  }

  /** What is left to check once every group has been read. */
  lemma AllGroupsRead(items: seq<Item>, calls: map<string, RequestCall>, pending: seq<string>, messages: seq<InputMessage>)
    requires GroupLoop(items, |items|, calls, pending, messages)
    ensures AllEncodable(items)
    ensures pending == [] <==> Settled(items, |items|)
  {
    if pending != [] { assert pending[0] in pending; }
  }

  /** requestInput. */
  method RequestInput(items: seq<Item>) returns (r: Result<Encoded>)
    ensures r.Ok? <==> Accepts(items)
    ensures r.Ok? ==> r.value == Encoded(Render(Body(items), |Body(items)|), if HasSystem(items) then Some(items[0].text) else None)
  {
    var system := None;
    if |items| != 0 && items[0].Message? && items[0].role.RoleSystem? {
      system := Some(items[0].text);
    }
    var body := if system.Some? then items[1..] else items;
    var messages: seq<InputMessage> := [];
    var calls: map<string, RequestCall> := map[];
    var pending: seq<string> := [];
    var start := 0;
    while start < |body|
      invariant start <= |body|
      invariant GroupLoop(body, start, calls, pending, messages)
    {
      var message, end, updated, asked := RequestGroup(body, start, calls, pending, messages);
      if message.Err? { return Err(message.error); }
      messages := messages + [message.value];
      start, calls, pending := end, updated, asked;
    }
    AllGroupsRead(body, calls, pending, messages);
    if |pending| != 0 { return Err(MissingResults(pending)); }
    if |messages| == 0 { return Err(EmptyMessages); }
    r := Ok(Encoded(messages, system));
  }

  // --------------------------------------------- nothing is lost or repeated

  /** Everything one side says in the first `n` messages, in order. */
  function Said(messages: seq<InputMessage>, side: Side): seq<Block> {
    if messages == [] then []
    else
      var n := |messages| - 1;
      Said(messages[..n], side) + if messages[n].side == side then messages[n].content else []
  }

  /** The tool_result blocks among `blocks`, or the others. */
  function Select(blocks: seq<Block>, answers: bool): seq<Block> {
    if blocks == [] then []
    else
      var n := |blocks| - 1;
      Select(blocks[..n], answers) + if blocks[n].Answer? == answers then [blocks[n]] else []
  }

  lemma {:induction false} SelectConcat(a: seq<Block>, b: seq<Block>, answers: bool)
    ensures Select(a + b, answers) == Select(a, answers) + Select(b, answers)
  {
    if b == [] {
      assert a + b == a;
    } else {
      var n := |b| - 1;
      SelectConcat(a, b[..n], answers);
      assert (a + b)[..|a + b| - 1] == a + b[..n];
    }
  }

  lemma {:induction false} SelectUniform(blocks: seq<Block>, answers: bool)
    requires forall i :: 0 <= i < |blocks| ==> blocks[i].Answer? == answers
    ensures Select(blocks, answers) == blocks && Select(blocks, !answers) == []
  {
    if blocks != [] { SelectUniform(blocks[..|blocks| - 1], answers); }
  }

  lemma {:induction false} ContentIsPlain(output: seq<Part>)
    ensures OutputBlocks(output).Some? ==> forall b :: b in OutputBlocks(output).value ==> !b.Answer?
  {
    if output != [] { ContentIsPlain(output[1..]); }
  }

  lemma {:induction false} OrdinaryIsPlain(items: seq<Item>, a: nat, b: nat)
    requires a <= b <= |items|
    ensures forall block :: block in Ordinary(items, a, b) ==> !block.Answer?
  {
    if a < b {
      OrdinaryIsPlain(items, a, b - 1);
      if items[b - 1].ToolResult? { ContentIsPlain(items[b - 1].output); }
    }
  }

  lemma {:induction false} AnswersAreAnswers(answers: map<string, seq<Part>>, ids: seq<string>, n: nat)
    requires n <= |ids|
    ensures forall b :: b in Answers(answers, ids, n) ==> b.Answer?
  {
    if n > 0 { AnswersAreAnswers(answers, ids, n - 1); }
  }

  lemma {:induction false} AnswersConcat(answers: map<string, seq<Part>>, a: seq<string>, b: seq<string>, n: nat)
    requires n <= |b|
    ensures Answers(answers, a + b, |a| + n) == AnswersFor(answers, a) + Answers(answers, b, n)
  {
    if n == 0 { AnswersOfPrefix(answers, a, b, |a|); } else { AnswersConcat(answers, a, b, n - 1); }
  }

  lemma AnswersForConcat(answers: map<string, seq<Part>>, a: seq<string>, b: seq<string>)
    ensures AnswersFor(answers, a + b) == AnswersFor(answers, a) + AnswersFor(answers, b)
  {
    AnswersConcat(answers, a, b, |b|);
  }

  lemma {:induction false} AnswersOfPrefix(answers: map<string, seq<Part>>, a: seq<string>, b: seq<string>, n: nat)
    requires n <= |a|
    ensures Answers(answers, a + b, n) == Answers(answers, a, n)
  {
    if n > 0 { AnswersOfPrefix(answers, a, b, n - 1); }
  }

  lemma {:induction false} AnswersExtend(early: map<string, seq<Part>>, late: map<string, seq<Part>>, ids: seq<string>, n: nat)
    requires n <= |ids| && forall id :: id in ids ==> id in early
    requires forall id :: id in early ==> id in late && late[id] == early[id]
    ensures Answers(late, ids, n) == Answers(early, ids, n)
  {
    if n > 0 { AnswersExtend(early, late, ids, n - 1); }
  }

  /** A user message is its tool results followed by its ordinary content. */
  lemma UserContentSplits(answers: map<string, seq<Part>>, ids: seq<string>, items: seq<Item>, a: nat, b: nat)
    requires a <= b <= |items|
    ensures Select(AnswersFor(answers, ids) + Ordinary(items, a, b), true) == AnswersFor(answers, ids)
    ensures Select(AnswersFor(answers, ids) + Ordinary(items, a, b), false) == Ordinary(items, a, b)
  {
    var x, y := AnswersFor(answers, ids), Ordinary(items, a, b);
    AnswersAreAnswers(answers, ids, |ids|);
    OrdinaryIsPlain(items, a, b);
    SelectConcat(x, y, true);
    SelectConcat(x, y, false);
    SelectUniform(x, true);
    SelectUniform(y, false);
  }

  lemma {:induction false} OrdinarySplit(items: seq<Item>, a: nat, b: nat)
    requires a <= b <= |items|
    ensures Ordinary(items, 0, b) == Ordinary(items, 0, a) + Ordinary(items, a, b)
  {
    if a < b { OrdinarySplit(items, a, b - 1); }
  }

  lemma {:induction false} AssistantBlocksSplit(items: seq<Item>, a: nat, b: nat)
    requires a <= b <= |items|
    ensures AssistantBlocks(items, 0, b) == AssistantBlocks(items, 0, a) + AssistantBlocks(items, a, b)
  {
    if a < b { AssistantBlocksSplit(items, a, b - 1); }
  }

  lemma {:induction false} AssistantRunIsPlain(items: seq<Item>, a: nat, b: nat)
    requires a <= b <= |items|
    requires forall i :: a <= i < b ==> ItemSide(items[i]) == Some(Assistant)
    ensures Ordinary(items, a, b) == []
  {
    if a < b { AssistantRunIsPlain(items, a, b - 1); }
  }

  lemma {:induction false} UserRunIsSilent(items: seq<Item>, a: nat, b: nat)
    requires a <= b <= |items|
    requires forall i :: a <= i < b ==> ItemSide(items[i]) == Some(User)
    ensures AssistantBlocks(items, a, b) == [] && CallIDs(items, a, b) == []
  {
    if a < b { UserRunIsSilent(items, a, b - 1); }
  }

  lemma SaidSnoc(messages: seq<InputMessage>, message: InputMessage, side: Side)
    ensures Said(messages + [message], side) == Said(messages, side) + if message.side == side then message.content else []
  {
    assert (messages + [message])[..|messages|] == messages;
  }

  /** A last group of the assistant's adds only to the assistant's side. */
  lemma SaidByAssistantGroup(items: seq<Item>, a: nat, k: nat)
    requires 0 < k <= |items| && a == RunStart(items, k) && ItemSide(items[a]) == Some(Assistant)
    ensures Said(Render(items, k), User) == Said(Render(items, a), User)
    ensures Said(Render(items, k), Assistant) == Said(Render(items, a), Assistant) + AssistantBlocks(items, a, k)
  {
    SaidSnoc(Render(items, a), RenderGroup(items, a, k), User);
    SaidSnoc(Render(items, a), RenderGroup(items, a, k), Assistant);
  }

  /** The content of the user group `items[a..k]`. */
  function UserContent(items: seq<Item>, a: nat, k: nat): seq<Block>
    requires a <= k <= |items|
  {
    AnswersFor(FirstAnswers(items, k), Asked(items, a)) + Ordinary(items, a, k)
  }

  lemma SaidByUserGroup(items: seq<Item>, a: nat, k: nat)
    requires 0 < k <= |items| && a == RunStart(items, k) && ItemSide(items[a]) != Some(Assistant)
    ensures Said(Render(items, k), Assistant) == Said(Render(items, a), Assistant)
    ensures Said(Render(items, k), User) == Said(Render(items, a), User) + UserContent(items, a, k)
  {
    SaidSnoc(Render(items, a), RenderGroup(items, a, k), User);
    SaidSnoc(Render(items, a), RenderGroup(items, a, k), Assistant);
  }

  /** A user group's answers and ordinary content stay apart. */
  lemma SelectUserGroup(said: seq<Block>, items: seq<Item>, a: nat, k: nat)
    requires a <= k <= |items|
    ensures Select(said + UserContent(items, a, k), true) ==
            Select(said, true) + AnswersFor(FirstAnswers(items, k), Asked(items, a))
    ensures Select(said + UserContent(items, a, k), false) == Select(said, false) + Ordinary(items, a, k)
  {
    UserContentSplits(FirstAnswers(items, k), Asked(items, a), items, a, k);
    SelectConcat(said, UserContent(items, a, k), true);
    SelectConcat(said, UserContent(items, a, k), false);
  }

  /** Every item on the assistant's side is one block, in order. */
  lemma {:induction false} RenderKeepsAssistant(items: seq<Item>, k: nat)
    requires k <= |items| && forall i :: 0 <= i < k ==> ItemSide(items[i]).Some?
    ensures Said(Render(items, k), Assistant) == AssistantBlocks(items, 0, k)
  {
    if k > 0 {
      var a := RunStart(items, k);
      RunIsMaximal(items, k);
      RenderKeepsAssistant(items, a);
      AssistantBlocksSplit(items, a, k);
      if ItemSide(items[a]) == Some(Assistant) {
        SaidByAssistantGroup(items, a, k);
      } else {
        SaidByUserGroup(items, a, k);
        UserRunIsSilent(items, a, k);
      }
    }
  }

  /** Every message and every later result on the user's side is its ordinary content, in order. */
  lemma {:induction false} RenderKeepsOrdinary(items: seq<Item>, k: nat)
    requires k <= |items| && forall i :: 0 <= i < k ==> ItemSide(items[i]).Some?
    ensures Select(Said(Render(items, k), User), false) == Ordinary(items, 0, k)
  {
    if k > 0 {
      var a := RunStart(items, k);
      RunIsMaximal(items, k);
      RenderKeepsOrdinary(items, a);
      OrdinarySplit(items, a, k);
      if ItemSide(items[a]) == Some(Assistant) {
        SaidByAssistantGroup(items, a, k);
        AssistantRunIsPlain(items, a, k);
      } else {
        SaidByUserGroup(items, a, k);
        SelectUserGroup(Said(Render(items, a), User), items, a, k);
      }
    }
  }

  /** The calls that must have been answered when the input ends after `k` items. */
  function Due(items: seq<Item>, k: nat): seq<string>
    requires k <= |items|
  {
    if k == 0 then []
    else if ItemSide(items[k - 1]) == Some(Assistant) then CallIDs(items, 0, RunStart(items, k))
    else CallIDs(items, 0, k)
  }

  /** The answers due are recorded, and stay. */
  lemma DueAnswered(items: seq<Item>, k: nat, m: nat)
    requires k <= m <= |items| && WellOrdered(items, k)
    requires k > 0 && ItemSide(items[k - 1]) == Some(User) ==> AllAnswered(items, k)
    ensures AnswersFor(FirstAnswers(items, m), Due(items, k)) == AnswersFor(FirstAnswers(items, k), Due(items, k))
    ensures forall id :: id in Due(items, k) ==> id in FirstAnswers(items, k)
  {
    AnswersGrow(items, k, m);
    if k > 0 {
      assert FitsAt(items, k - 1);
      RunIsMaximal(items, k);
      var a := if ItemSide(items[k - 1]) == Some(Assistant) then RunStart(items, k) else k;
      if a < k {
        assert FitsAt(items, a) && (a > 0 ==> FitsAt(items, a - 1));
        AnsweredBeforeAssistant(items, a);
      }
      NamesAreCalls(items, a);
      AnswersGrow(items, a, k);
    }
    AnswersExtend(FirstAnswers(items, k), FirstAnswers(items, m), Due(items, k), |Due(items, k)|);
  }

  /** What the user group `items[a..k]` owes: what was due before, and what was just asked. */
  lemma DueAfterUserGroup(items: seq<Item>, k: nat)
    requires 0 < k <= |items| && ItemSide(items[k - 1]) == Some(User) && WellOrdered(items, k)
    ensures Due(items, k) == Due(items, RunStart(items, k)) + Asked(items, RunStart(items, k))
    ensures RunStart(items, k) > 0 ==> ItemSide(items[RunStart(items, k) - 1]) == Some(Assistant)
  {
    var a := RunStart(items, k);
    RunIsMaximal(items, k);
    UserRunIsSilent(items, a, k);
    CallIDsSplit(items, 0, a, k);
    if a > 0 {
      assert FitsAt(items, a - 1);
      CallIDsSplit(items, 0, RunStart(items, a), a);
    }
  }

  /** One user group adds the answers that were due to it. */
  lemma AnswersOfUserGroup(items: seq<Item>, a: nat, k: nat)
    requires 0 < k <= |items| && ItemSide(items[k - 1]) == Some(User) && WellOrdered(items, k)
    requires a == RunStart(items, k)
    requires Select(Said(Render(items, a), User), true) == AnswersFor(FirstAnswers(items, k), Due(items, a))
    ensures Select(Said(Render(items, k), User), true) == AnswersFor(FirstAnswers(items, k), Due(items, k))
  {
    RunIsMaximal(items, k);
    DueAfterUserGroup(items, k);
    SaidByUserGroup(items, a, k);
    SelectUserGroup(Said(Render(items, a), User), items, a, k);
    AnswersForConcat(FirstAnswers(items, k), Due(items, a), Asked(items, a));
  }

  lemma DueOfAssistantGroup(items: seq<Item>, a: nat, k: nat)
    requires 0 < k <= |items| && a == RunStart(items, k) && ItemSide(items[k - 1]) == Some(Assistant)
    requires a > 0 ==> ItemSide(items[a - 1]) != Some(Assistant)
    ensures Due(items, k) == Due(items, a)
  {
  }

  lemma {:induction false} RenderAnswers(items: seq<Item>, k: nat)
    requires k <= |items| && WellOrdered(items, k)
    requires k > 0 && ItemSide(items[k - 1]) == Some(User) ==> AllAnswered(items, k)
    ensures Select(Said(Render(items, k), User), true) == AnswersFor(FirstAnswers(items, k), Due(items, k))
  {
    if k > 0 {
      var a := RunStart(items, k);
      RunIsMaximal(items, k);
      assert FitsAt(items, a) && (a > 0 ==> FitsAt(items, a - 1));
      if ItemSide(items[a]) == Some(Assistant) {
        AnsweredBeforeAssistant(items, a);
        RenderAnswers(items, a);
        SaidByAssistantGroup(items, a, k);
        DueOfAssistantGroup(items, a, k);
        DueAnswered(items, a, k);
      } else {
        RenderAnswers(items, a);
        DueAnswered(items, a, k);
        AnswersOfUserGroup(items, a, k);
      }
    }
  }

  /** A settled input owes nothing beyond what its user groups answered. */
  lemma {:induction false} SettledRunHasNoCalls(items: seq<Item>, a: nat, k: nat)
    requires a <= k <= |items| && Settled(items, k)
    requires forall i :: a <= i < k ==> ItemSide(items[i]) == Some(Assistant)
    ensures CallIDs(items, 0, k) == CallIDs(items, 0, a)
  {
    if a < k {
      assert FitsAt(items, k - 1);
      AnsweredAreKnown(items, k - 1);
      assert FirstAnswers(items, k) == FirstAnswers(items, k - 1);
      assert forall id :: id in Names(items, k) ==> id in Names(items, k - 1);
      SettledRunHasNoCalls(items, a, k - 1);
    }
  }

  lemma {:induction false} CallsOnce(items: seq<Item>, k: nat)
    requires k <= |items| && WellOrdered(items, k)
    ensures forall i, j :: 0 <= i < j < |CallIDs(items, 0, k)| ==> CallIDs(items, 0, k)[i] != CallIDs(items, 0, k)[j]
  {
    if k > 0 {
      CallsOnce(items, k - 1);
      NamesAreCalls(items, k - 1);
      assert FitsAt(items, k - 1);
      var before := CallIDs(items, 0, k - 1);
      if items[k - 1].ToolCall? {
        assert items[k - 1].callID !in before;
        assert CallIDs(items, 0, k) == before + [items[k - 1].callID];
      }
    }
  }

  /** In an accepted input every call, each with an ID of its own, has exactly one tool_result
      block, with its first result, in call order; every other result and every user message keeps
      its place as ordinary content; nothing else is emitted. */
  lemma AcceptedRendering(items: seq<Item>)
    requires Accepts(items)
    ensures var body, n := Body(items), |Body(items)|;
            && (forall id :: id in CallIDs(body, 0, n) <==> id in FirstAnswers(body, n))
            && (forall i, j :: 0 <= i < j < |CallIDs(body, 0, n)| ==> CallIDs(body, 0, n)[i] != CallIDs(body, 0, n)[j])
            && Select(Said(Render(body, n), User), true) == AnswersFor(FirstAnswers(body, n), CallIDs(body, 0, n))
            && Select(Said(Render(body, n), User), false) == Ordinary(body, 0, n)
            && Said(Render(body, n), Assistant) == AssistantBlocks(body, 0, n)
  {
    var body, n := Body(items), |Body(items)|;
    assert forall i :: 0 <= i < n ==> FitsAt(body, i) && ItemSide(body[i]).Some?;
    AnsweredAreKnown(body, n);
    NamesAreCalls(body, n);
    CallsOnce(body, n);
    RenderKeepsAssistant(body, n);
    RenderKeepsOrdinary(body, n);
    RenderAnswers(body, n);
    RunIsMaximal(body, n);
    if ItemSide(body[n - 1]) == Some(Assistant) { SettledRunHasNoCalls(body, RunStart(body, n), n); }
  }
}
