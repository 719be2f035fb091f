/**
  The assembly of a streamed message (harness/llm/messagesapi/stream.go,
  message_builder.go, block_content_builder.go): events fold into a message whose blocks
  do not depend on how their events were interleaved.

  JSON objects are maps; `Decoded` is a raw member by what decoding it as an object gives.
 */
module StreamAssembler {
  import opened Llm

  datatype Value = Null | Text(text: string) | Raw(json: string) | Object(fields: map<string, Value>)

  type Fields = map<string, Value>

  datatype Decoded = Missing | Broken | JsonNull | Fields(fields: Fields)

  datatype Delta = BadDelta | Delta(kind: string, text: string, thinking: string, signature: string, partialJSON: string)

  datatype Event =
    | MessageStart(message: Decoded)
    | MessageDelta(delta: Decoded, usage: Decoded)
    | MessageStop
    | BlockStart(index: Option<int>, block: Decoded)
    | BlockDelta(index: Option<int>, change: Delta)
    | BlockStop(index: Option<int>)
    | ErrorEvent(data: string)
    | OtherEvent
    | BadEvent

  datatype Block = Block(kind: string, fields: Fields, text: string, signature: string, input: string, finalized: bool)
  datatype Message = Message(fields: Fields, blocks: map<int, Block>)

  /** A built message: its members but for `content`, and its content. */
  datatype Built = Built(fields: Fields, content: seq<Fields>)

  /** `error` is the body of an error event. */
  datatype State = State(message: Option<Message>, body: Option<Built>, terminal: bool, error: Option<string>)

  const START := State(None, None, false, None)

  // ------------------------------------------------------------------ usage

  /** mergeUsage: null says nothing, objects merge, anything else replaces. */
  function MergeUsage(previous: Value, update: Value): Value
    requires update.Object?
    decreases update
  {
    var fields := if previous.Object? then previous.fields else map[];
    Object(fields + map name | name in update.fields && update.fields[name] != Null ::
      if update.fields[name].Object? then MergeUsage(if name in fields then fields[name] else Null, update.fields[name])
      else update.fields[name])
  }

  /** What stands at a path of member names. */
  function At(v: Value, path: seq<string>): Option<Value>
    decreases |path|
  {
    if path == [] then Some(v)
    else if v.Object? && path[0] in v.fields then At(v.fields[path[0]], path[1..]) else None
  }

  /** `update` has a value of its own at the path, or replaces something above it. */
  predicate Decides(update: Value, path: seq<string>)
    decreases |path|
  {
    if path == [] then update != Null && !update.Object?
    else update != Null && (update.Object? ==> path[0] in update.fields && Decides(update.fields[path[0]], path[1..]))
  }

  /** Merging takes from the update what it decides, and leaves every other leaf alone. */
  lemma {:induction false} MergeTakesDecisions(previous: Value, update: Value, path: seq<string>)
    requires update.Object? && path != []
    ensures Decides(update, path) ==> At(MergeUsage(previous, update), path) == At(update, path)
    ensures !Decides(update, path) && At(previous, path).Some? && !At(previous, path).value.Object? && !Reaches(update, path) ==>
              At(MergeUsage(previous, update), path) == At(previous, path)
    decreases |path|
  {
    var fields := if previous.Object? then previous.fields else map[];
    var name, merged := path[0], MergeUsage(previous, update).fields;
    assert name in update.fields && update.fields[name] != Null ==>
             name in merged && merged[name] == if update.fields[name].Object?
                                               then MergeUsage(if name in fields then fields[name] else Null, update.fields[name])
                                               else update.fields[name];
    assert (name !in update.fields || update.fields[name] == Null) ==> (name in merged <==> name in fields) && (name in fields ==> merged[name] == fields[name]);
    var rest := path[1..];
    assert name in update.fields ==> At(update, path) == At(update.fields[name], rest) && (Decides(update, path) <==> Decides(update.fields[name], rest));
    assert name in merged ==> At(Object(merged), path) == At(merged[name], rest);
    assert name in fields ==> At(Object(fields), path) == At(fields[name], rest);
    assert previous.Object? ==> previous == Object(fields);
    assert At(Null, rest) == (if rest == [] then Some(Null) else None) && !Decides(Null, rest);
    if |path| == 1 { assert rest == []; }
    if name in update.fields && update.fields[name].Object? && |path| > 1 {
      MergeTakesDecisions(if name in fields then fields[name] else Null, update.fields[name], path[1..]);
    }
  }

  /** `update` has an object where the path ends. */
  predicate Reaches(update: Value, path: seq<string>) { At(update, path).Some? && At(update, path).value.Object? }

  /** Cumulative usage may be reported again. */
  lemma {:induction false} MergeTwice(previous: Value, update: Value)
    requires update.Object?
    ensures MergeUsage(MergeUsage(previous, update), update) == MergeUsage(previous, update)
    decreases update
  {
    var once := MergeUsage(previous, update);
    var fields := if previous.Object? then previous.fields else map[];
    forall name | name in update.fields && update.fields[name].Object?
      ensures MergeUsage(once.fields[name], update.fields[name]) == once.fields[name]
    {
      MergeTwice(if name in fields then fields[name] else Null, update.fields[name]);
    }
    assert MergeUsage(once, update).fields == once.fields;
  }

  // ----------------------------------------------------------------- blocks

  /** A member that is a string, missing or null; None is an error. */
  function StringMember(fields: Fields, name: string): Option<string> {
    if name !in fields || fields[name].Null? then Some("")
    else if fields[name].Text? then Some(fields[name].text)
    else None
  }

  /** newBlockContentBuilder. */
  function NewBlock(raw: Decoded): Option<Block> {
    if raw.Missing? || raw.Broken? then None
    else
      var fields: Fields := if raw.Fields? then raw.fields else map[];
      var kind := if "type" in fields && fields["type"].Text? then fields["type"].text else "";
      match kind
      case "text" =>
        (match StringMember(fields, "text") case None => None case Some(text) => Some(Block(kind, fields, text, "", "", false)))
      case "thinking" =>
        (match (StringMember(fields, "thinking"), StringMember(fields, "signature"))
         case (Some(text), Some(signature)) => Some(Block(kind, fields, text, signature, "", false))
         case _ => None)
      case _ =>
        if kind in ["tool_use", "redacted_thinking", "fallback"] then Some(Block(kind, fields, "", "", "", false)) else None
  }

  /** handleDelta. */
  function HandleDelta(b: Block, d: Delta): Option<Block> {
    if b.finalized || d.BadDelta? then None
    else if d.kind == "text_delta" && b.kind == "text" then Some(b.(text := b.text + d.text))
    else if d.kind == "thinking_delta" && b.kind == "thinking" then Some(b.(text := b.text + d.thinking))
    else if d.kind == "signature_delta" && b.kind == "thinking" then Some(b.(signature := b.signature + d.signature))
    else if d.kind == "input_json_delta" && b.kind == "tool_use" then Some(b.(input := b.input + d.partialJSON))
    else None
  }

  /** build; `isObject` says whether a text is a complete JSON object. */
  function BuildBlock(isObject: string -> bool, b: Block): Option<Fields> {
    if b.kind == "text" then Some(b.fields["text" := Text(b.text)])
    else if b.kind == "thinking" then Some(b.fields["thinking" := Text(b.text)]["signature" := Text(b.signature)])
    else if b.kind == "tool_use" && b.input != "" then
      if isObject(b.input) then Some(b.fields["input" := Raw(b.input)]) else None
    else Some(b.fields)
  }

  // ---------------------------------------------------------------- message

  function NewMessage(raw: Decoded): Option<Fields> { if raw.Fields? then Some(raw.fields) else None }

  /** The members among `names` that are not null. */
  function NonNull(fields: Fields, names: set<string>): Fields {
    map name | name in names && name in fields && fields[name] != Null :: fields[name]
  }

  /** update. */
  function UpdateFields(fields: Fields, delta: Decoded, usage: Decoded): Option<Fields> {
    if delta.Broken? || usage.Broken? then None
    else
      var updated := if delta.Fields? then fields + NonNull(delta.fields, delta.fields.Keys) else fields;
      if usage.Fields? then
        Some(updated["usage" := MergeUsage(if "usage" in updated then updated["usage"] else Null, Object(usage.fields))])
      else Some(updated)
  }

  /** Blocks that a finalized fallback after them supersedes. */
  predicate Superseded(blocks: map<int, Block>, i: int)
    requires i in blocks
  {
    && blocks[i].kind in ["thinking", "redacted_thinking", "tool_use"]
    && exists j :: j in blocks && j > i && blocks[j].finalized && blocks[j].kind == "fallback"
  }

  /** The blocks a built message shows: finalized, and not superseded. */
  predicate Shown(blocks: map<int, Block>, i: int)
    requires i in blocks
  {
    blocks[i].finalized && !Superseded(blocks, i)
  }

  /** The content of the shown blocks among `order[..n]`, in order. */
  function Content(isObject: string -> bool, blocks: map<int, Block>, order: seq<int>, n: nat): Option<seq<Fields>>
    requires n <= |order| && forall j :: 0 <= j < |order| ==> order[j] in blocks
  {
    if n == 0 then Some([])
    else
      match Content(isObject, blocks, order, n - 1)
      case None => None
      case Some(before) =>
        if !Shown(blocks, order[n - 1]) then Some(before)
        else match BuildBlock(isObject, blocks[order[n - 1]]) case None => None case Some(block) => Some(before + [block])
  }

  predicate Ascending(order: seq<int>) { forall a, b :: 0 <= a < b < |order| ==> order[a] < order[b] }

  lemma AnyOf<T>(s: set<T>) returns (x: T)
    requires |s| != 0
    ensures x in s
  {
    x :| x in s;
  }

  lemma MaxExists(s: set<int>) returns (m: int)
    requires |s| != 0
    ensures m in s && forall x :: x in s ==> x <= m
    decreases |s|
  {
    m := AnyOf(s);
    var rest := s - {m};
    if |rest| == 0 {
      assert s == {m};
    } else {
      var n := MaxExists(rest);
      assert forall x :: x in s ==> x == m || x in rest;
      if n > m { m := n; }
    }
  }

  /** The block indexes, sorted. */
  function Sorted(s: set<int>): (order: seq<int>)
    ensures Ascending(order) && forall i :: i in order <==> i in s
    decreases |s|
  {
    if s == {} then []
    else
      assert exists m :: m in s && forall x :: x in s ==> x <= m by { var m := MaxExists(s); }
      var m :| m in s && forall x :: x in s ==> x <= m;
      Sorted(s - {m}) + [m]
  }

  function BuildMessage(isObject: string -> bool, m: Message): Option<Built> {
    var order := Sorted(m.blocks.Keys);
    match Content(isObject, m.blocks, order, |order|)
    case None => None
    case Some(content) => Some(Built(m.fields - {"content"}, content))
  }

  // ----------------------------------------------------------------- events

  function ObserveBlock(m: Message, index: int, e: Event): Option<Message>
    requires e.BlockStart? || e.BlockDelta? || e.BlockStop?
  {
    if e.BlockStart? then
      if index in m.blocks then None
      else match NewBlock(e.block) case None => None case Some(b) => Some(m.(blocks := m.blocks[index := b]))
    else if index !in m.blocks then None
    else if e.BlockDelta? then
      match HandleDelta(m.blocks[index], e.change) case None => None case Some(b) => Some(m.(blocks := m.blocks[index := b]))
    else Some(m.(blocks := m.blocks[index := m.blocks[index].(finalized := true)]))
  }

  predicate IsBlockEvent(e: Event) { e.BlockStart? || e.BlockDelta? || e.BlockStop? }

  /** observe; None is an error. */
  function Observe(isObject: string -> bool, s: State, e: Event): Option<State> {
    if s.terminal then Some(s)
    else if s.error.Some? then None
    else
      match e
      case BadEvent => None
      case MessageStart(raw) =>
        if s.message.Some? then None
        else (match NewMessage(raw) case None => None case Some(fields) => Some(s.(message := Some(Message.Message(fields, map[])))))
      case MessageDelta(delta, usage) =>
        if s.message.None? then None
        else
          (match UpdateFields(s.message.value.fields, delta, usage)
           case None => None
           case Some(fields) => Some(s.(message := Some(s.message.value.(fields := fields)))))
      case MessageStop =>
        if s.message.None? then None
        else
          (match BuildMessage(isObject, s.message.value)
           case None => None
           case Some(body) => Some(State(None, Some(body), true, s.error)))
      case ErrorEvent(data) => Some(s.(error := Some(data)))
      case OtherEvent => Some(s)
      case _ =>
        if s.message.None? || e.index.None? || e.index.value < 0 then None
        else match ObserveBlock(s.message.value, e.index.value, e) case None => None case Some(m) => Some(s.(message := Some(m)))
  }

  function Fold(isObject: string -> bool, s: State, events: seq<Event>, k: nat): Option<State>
    requires k <= |events|
  {
    if k == 0 then Some(s)
    else match Fold(isObject, s, events, k - 1) case None => None case Some(t) => Observe(isObject, t, events[k - 1])
  }

  // ------------------------------------------------------- what a stream says

  /** The message-level events among the first `k`. */
  function MessageEvents(events: seq<Event>, k: nat): seq<Event>
    requires k <= |events|
  {
    if k == 0 then []
    else MessageEvents(events, k - 1) + if events[k - 1].MessageStart? || events[k - 1].MessageDelta? then [events[k - 1]] else []
  }

  /** The events of block `i` among the first `k`. */
  function BlockEvents(events: seq<Event>, i: int, k: nat): seq<Event>
    requires k <= |events|
  {
    if k == 0 then []
    else BlockEvents(events, i, k - 1) + if IsBlockEvent(events[k - 1]) && events[k - 1].index == Some(i) then [events[k - 1]] else []
  }

  /** What message-level events make of the members; Some(None) before the message starts. */
  function FieldsOf(events: seq<Event>): Option<Option<Fields>> {
    if events == [] then Some(None)
    else
      var n := |events| - 1;
      match FieldsOf(events[..n])
      case None => None
      case Some(before) =>
        match events[n]
        case MessageStart(raw) => if before.Some? || NewMessage(raw).None? then None else Some(NewMessage(raw))
        case MessageDelta(delta, usage) =>
          if before.None? || UpdateFields(before.value, delta, usage).None? then None else Some(UpdateFields(before.value, delta, usage))
        case _ => None
  }

  /** What its events make of one block; Some(None) before it starts. */
  function BlockOf(events: seq<Event>): Option<Option<Block>> {
    if events == [] then Some(None)
    else
      var n := |events| - 1;
      match BlockOf(events[..n])
      case None => None
      case Some(before) =>
        match events[n]
        case BlockStart(_, raw) => if before.Some? || NewBlock(raw).None? then None else Some(NewBlock(raw))
        case BlockDelta(_, change) =>
          if before.None? || HandleDelta(before.value, change).None? then None else Some(HandleDelta(before.value, change))
        case BlockStop(_) => if before.None? then None else Some(Some(before.value.(finalized := true)))
        case _ => None
  }

  /** A message has started among the first `k` events. */
  predicate Started(events: seq<Event>, k: nat)
    requires k <= |events|
  {
    k > 0 && (events[k - 1].MessageStart? || Started(events, k - 1))
  }

  /** Event `k` may stand where it stands. */
  predicate Placed(events: seq<Event>, k: nat)
    requires k < |events|
  {
    var e := events[k];
    !e.BadEvent? && (e.MessageDelta? ==> Started(events, k))
    && (IsBlockEvent(e) ==> Started(events, k) && e.index.Some? && e.index.value >= 0)
  }

  predicate AllPlaced(events: seq<Event>, k: nat)
    requires k <= |events|
  {
    forall j :: 0 <= j < k ==> Placed(events, j)
  }

  /** No end and no error among the events. */
  predicate Running(events: seq<Event>) { forall j :: 0 <= j < |events| ==> !events[j].MessageStop? && !events[j].ErrorEvent? }

  /** The state is told by the message-level events and each block's own. */
  ghost predicate Told(s: State, events: seq<Event>, k: nat)
    requires k <= |events|
  {
    && !s.terminal && s.error.None? && s.body.None?
    && FieldsOf(MessageEvents(events, k)).Some?
    && (s.message.Some? <==> Started(events, k))
    && FieldsOf(MessageEvents(events, k)).value == (if s.message.None? then None else Some(s.message.value.fields))
    && (forall i :: BlockOf(BlockEvents(events, i, k)) ==
          Some(if s.message.Some? && i in s.message.value.blocks then Some(s.message.value.blocks[i]) else None))
  }

  /** Some of the events cannot be folded. */
  ghost predicate Unfoldable(events: seq<Event>, k: nat)
    requires k <= |events|
  {
    || !AllPlaced(events, k) || FieldsOf(MessageEvents(events, k)).None?
    || exists i :: BlockOf(BlockEvents(events, i, k)).None?
  }

  lemma MessageSnoc(events: seq<Event>, k: nat)
    requires k < |events|
    ensures var m, next := MessageEvents(events, k), MessageEvents(events, k + 1);
            if events[k].MessageStart? || events[k].MessageDelta? then next[..|next| - 1] == m && next[|next| - 1] == events[k] && next != []
            else next == m
  {
  }

  lemma BlockSnoc(events: seq<Event>, i: int, k: nat)
    requires k < |events|
    ensures var m, next := BlockEvents(events, i, k), BlockEvents(events, i, k + 1);
            if IsBlockEvent(events[k]) && events[k].index == Some(i) then next[..|next| - 1] == m && next[|next| - 1] == events[k] && next != []
            else next == m
  {
  }

  lemma {:induction false} StaysUnfoldable(events: seq<Event>, k: nat)
    requires k < |events| && Unfoldable(events, k)
    ensures Unfoldable(events, k + 1)
  {
    MessageSnoc(events, k);
    if exists i :: BlockOf(BlockEvents(events, i, k)).None? {
      var i :| BlockOf(BlockEvents(events, i, k)).None?;
      BlockSnoc(events, i, k);
    }
  }

  /** An event of one block changes that block as its own events say. */
  lemma BlockStepTold(s: State, events: seq<Event>, k: nat)
    requires k < |events| && Told(s, events, k) && AllPlaced(events, k) && s.message.Some?
    requires IsBlockEvent(events[k]) && events[k].index.Some? && events[k].index.value >= 0
    ensures match ObserveBlock(s.message.value, events[k].index.value, events[k])
            case None => Unfoldable(events, k + 1)
            case Some(m) => Told(s.(message := Some(m)), events, k + 1) && AllPlaced(events, k + 1)
  {
    hide NewBlock, HandleDelta, FieldsOf, MessageEvents, BlockEvents;
    var e := events[k];
    var i := e.index.value;
    MessageSnoc(events, k);
    var after := k + 1;
    forall j ensures j != i ==> BlockEvents(events, j, after) == BlockEvents(events, j, k) {
      BlockSnoc(events, j, k);
    }
    BlockSnoc(events, i, k);
    assert BlockOf(BlockEvents(events, i, k)).Some?;
    var next := BlockOf(BlockEvents(events, i, k + 1));
    match ObserveBlock(s.message.value, i, e)
    case None => assert next.None?;
    case Some(m) =>
      assert next == Some(Some(m.blocks[i]));
      assert Placed(events, k);
  }

  /** An event of the message leaves every block alone. */
  lemma MessageStepTold(isObject: string -> bool, s: State, events: seq<Event>, k: nat)
    requires k < |events| && Told(s, events, k) && AllPlaced(events, k) && !IsBlockEvent(events[k])
    requires !events[k].MessageStop? && !events[k].ErrorEvent?
    ensures match Observe(isObject, s, events[k])
            case None => Unfoldable(events, k + 1)
            case Some(t) => Told(t, events, k + 1) && AllPlaced(events, k + 1)
  {
    hide NewMessage, UpdateFields, BlockEvents, MessageEvents;
    MessageSnoc(events, k);
    var next := k + 1;
    forall j ensures BlockEvents(events, j, next) == BlockEvents(events, j, k) {
      BlockSnoc(events, j, k);
    }
    assert Placed(events, k) || !AllPlaced(events, k + 1);
  }

  lemma StepTold(isObject: string -> bool, s: State, events: seq<Event>, k: nat)
    requires k < |events| && Running(events) && Told(s, events, k) && AllPlaced(events, k)
    ensures match Observe(isObject, s, events[k])
            case None => Unfoldable(events, k + 1)
            case Some(t) => Told(t, events, k + 1) && AllPlaced(events, k + 1)
  {
    hide FieldsOf, BlockOf, MessageEvents, BlockEvents, ObserveBlock, NewMessage, UpdateFields, Unfoldable;
    var e := events[k];
    if !IsBlockEvent(e) {
      MessageStepTold(isObject, s, events, k);
    } else if s.message.Some? && e.index.Some? && e.index.value >= 0 {
      BlockStepTold(s, events, k);
    } else {
      assert !Placed(events, k);
      Misplaced(events, k);
    }
  }

  lemma Misplaced(events: seq<Event>, k: nat)
    requires k < |events| && !Placed(events, k)
    ensures Unfoldable(events, k + 1)
  {
  }

  /** A stream folds exactly when its events stand in order, its message-level events fold
      and the events of each block do; and its state is what these make. */
  lemma {:induction false} FoldMeaning(isObject: string -> bool, events: seq<Event>, k: nat)
    requires k <= |events| && Running(events)
    ensures match Fold(isObject, START, events, k)
            case None => Unfoldable(events, k)
            case Some(s) => Told(s, events, k) && AllPlaced(events, k)
  {
    hide Observe, Told, Unfoldable, AllPlaced;
    if k == 0 {
      NothingTold(events);
    } else {
      FoldMeaning(isObject, events, k - 1);
      match Fold(isObject, START, events, k - 1)
      case None => StaysUnfoldable(events, k - 1);
      case Some(s) => StepTold(isObject, s, events, k - 1);
    }
  }

  lemma NothingTold(events: seq<Event>)
    ensures Told(START, events, 0) && AllPlaced(events, 0)
  {
  }

  /** Two streams with the same message-level events and, for each block, the same events of
      that block, each in place: they fold alike, and give the same message when stopped,
      or fail alike. How blocks interleave does not matter. */
  lemma InterleavingDoesNotMatter(isObject: string -> bool, a: seq<Event>, b: seq<Event>)
    requires Running(a) && Running(b) && AllPlaced(a, |a|) && AllPlaced(b, |b|)
    requires MessageEvents(a, |a|) == MessageEvents(b, |b|)
    requires forall i :: BlockEvents(a, i, |a|) == BlockEvents(b, i, |b|)
    ensures Fold(isObject, START, a, |a|) == Fold(isObject, START, b, |b|)
    ensures Fold(isObject, START, a + [MessageStop], |a| + 1) == Fold(isObject, START, b + [MessageStop], |b| + 1)
  {
    hide Observe, Placed, FieldsOf, BlockOf, MessageEvents, BlockEvents;
    FoldMeaning(isObject, a, |a|);
    FoldMeaning(isObject, b, |b|);
    var x, y := Fold(isObject, START, a, |a|), Fold(isObject, START, b, |b|);
    if x.Some? && y.Some? {
      SameTold(x.value, a, y.value, b);
    }
    FoldOfPrefix(isObject, START, a, a + [MessageStop], |a|);
    FoldOfPrefix(isObject, START, b, b + [MessageStop], |b|);
  }

  lemma SameTold(s: State, a: seq<Event>, t: State, b: seq<Event>)
    requires Told(s, a, |a|) && Told(t, b, |b|)
    requires MessageEvents(a, |a|) == MessageEvents(b, |b|)
    requires forall i :: BlockEvents(a, i, |a|) == BlockEvents(b, i, |b|)
    ensures s == t
  {
    hide FieldsOf, BlockOf, MessageEvents, BlockEvents, Started;
    if s.message.Some? && t.message.Some? {
      forall i ensures i in s.message.value.blocks <==> i in t.message.value.blocks
               ensures i in s.message.value.blocks ==> s.message.value.blocks[i] == t.message.value.blocks[i]
      {
        assert BlockOf(BlockEvents(a, i, |a|)) == BlockOf(BlockEvents(b, i, |b|));
      }
      assert s.message.value.blocks == t.message.value.blocks;
    }
  }

  lemma {:induction false} FoldOfPrefix(isObject: string -> bool, s: State, a: seq<Event>, b: seq<Event>, k: nat)
    requires k <= |a| <= |b| && forall j :: 0 <= j < k ==> a[j] == b[j]
    ensures Fold(isObject, s, a, k) == Fold(isObject, s, b, k)
  {
    hide Observe;
    if k > 0 { FoldOfPrefix(isObject, s, a, b, k - 1); }
  }

  /** Whatever follows the stop is ignored. */
  lemma {:induction false} AfterStop(isObject: string -> bool, s: State, events: seq<Event>, j: nat, k: nat)
    requires j <= k <= |events| && Fold(isObject, s, events, j).Some? && Fold(isObject, s, events, j).value.terminal
    ensures Fold(isObject, s, events, k) == Fold(isObject, s, events, j)
  {
    if j < k { AfterStop(isObject, s, events, j, k - 1); }
  }
}
