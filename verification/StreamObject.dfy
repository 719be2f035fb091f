/**
  The streamed message as the objects it is (harness/llm/messagesapi/stream.go,
  message_builder.go, block_content_builder.go): string builders, a map of blocks and a
  backward loop, updated in place and proved against the functions of StreamAssembler.
 */
module StreamObject {
  import opened Llm
  import opened StreamAssembler

  datatype Unwrapped = ProviderError(data: string) | UnexpectedEnd | Complete(body: Option<Built>)

  class BlockContentBuilder {
    var kind: string
    var fields: Fields
    var text: string
    var signature: string
    var input: string
    var finalized: bool

    function View(): Block
      reads this
    {
      Block(kind, fields, text, signature, input, finalized)
    }

    constructor (b: Block)
      ensures View() == b
    {
      kind, fields, text, signature, input, finalized := b.kind, b.fields, b.text, b.signature, b.input, b.finalized;
    }

    method HandleDelta(delta: Delta) returns (ok: bool)
      modifies this
      ensures ok <==> StreamAssembler.HandleDelta(old(View()), delta).Some?
      ensures View() == if ok then StreamAssembler.HandleDelta(old(View()), delta).value else old(View())
    {
      if finalized { return false; }
      if delta.BadDelta? { return false; }
      if delta.kind == "text_delta" && kind == "text" {
        text := text + delta.text;
      } else if delta.kind == "thinking_delta" && kind == "thinking" {
        text := text + delta.thinking;
      } else if delta.kind == "signature_delta" && kind == "thinking" {
        signature := signature + delta.signature;
      } else if delta.kind == "input_json_delta" && kind == "tool_use" {
        input := input + delta.partialJSON;
      } else {
        return false;
      }
      ok := true;
    }

    method HandleStop()
      modifies this
      ensures View() == old(View()).(finalized := true)
    {
      finalized := true;
    }

    method Build(isObject: string -> bool) returns (r: Option<Fields>)
      ensures r == BuildBlock(isObject, View())
    {
      if kind == "text" { return Some(fields["text" := Text(text)]); }
      if kind == "thinking" { return Some(fields["thinking" := Text(text)]["signature" := Text(signature)]); }
      if kind == "tool_use" && |input| != 0 {
        if !isObject(input) { return None; }
        return Some(fields["input" := Raw(input)]);
      }
      r := Some(fields);
    }
  }

  /** A finalized fallback among `order[k..]`. */
  predicate FallbackFrom(blocks: map<int, Block>, order: seq<int>, k: nat)
    requires k <= |order| && forall j :: 0 <= j < |order| ==> order[j] in blocks
  {
    exists j :: k <= j < |order| && blocks[order[j]].finalized && blocks[order[j]].kind == "fallback"
  }

  /** The content of the shown blocks among `order[k..]`, in order. */
  function ContentFrom(isObject: string -> bool, blocks: map<int, Block>, order: seq<int>, k: nat): Option<seq<Fields>>
    requires k <= |order| && forall j :: 0 <= j < |order| ==> order[j] in blocks
    decreases |order| - k
  {
    if k == |order| then Some([])
    else
      match ContentFrom(isObject, blocks, order, k + 1)
      case None => None
      case Some(after) =>
        if !Shown(blocks, order[k]) then Some(after)
        else match BuildBlock(isObject, blocks[order[k]]) case None => None case Some(block) => Some([block] + after)
  }

  function Both(a: Option<seq<Fields>>, b: Option<seq<Fields>>): Option<seq<Fields>> {
    if a.None? || b.None? then None else Some(a.value + b.value)
  }

  /** Building backward or forward gives the same content. */
  lemma {:induction false} ContentEitherWay(isObject: string -> bool, blocks: map<int, Block>, order: seq<int>, k: nat)
    requires k <= |order| && forall j :: 0 <= j < |order| ==> order[j] in blocks
    ensures Content(isObject, blocks, order, |order|) == Both(Content(isObject, blocks, order, k), ContentFrom(isObject, blocks, order, k))
    decreases |order| - k
  {
    if k == |order| {
      var all := Content(isObject, blocks, order, k);
      if all.Some? { assert all.value + [] == all.value; }
    } else {
      ContentEitherWay(isObject, blocks, order, k + 1);
      var before, after := Content(isObject, blocks, order, k), ContentFrom(isObject, blocks, order, k + 1);
      if before.Some? && after.Some? && BuildBlock(isObject, blocks[order[k]]).Some? {
        var block := BuildBlock(isObject, blocks[order[k]]).value;
        assert (before.value + [block]) + after.value == before.value + ([block] + after.value);
      }
    }
  }

  lemma ContentBackward(isObject: string -> bool, blocks: map<int, Block>, order: seq<int>)
    requires forall j :: 0 <= j < |order| ==> order[j] in blocks
    ensures Content(isObject, blocks, order, |order|) == ContentFrom(isObject, blocks, order, 0)
  {
    ContentEitherWay(isObject, blocks, order, 0);
    var all := ContentFrom(isObject, blocks, order, 0);
    if all.Some? { assert [] + all.value == all.value; }
  }

  lemma {:induction false} NoContent(isObject: string -> bool, blocks: map<int, Block>, order: seq<int>, k: nat)
    requires k <= |order| && (forall j :: 0 <= j < |order| ==> order[j] in blocks) && ContentFrom(isObject, blocks, order, k).None?
    ensures Content(isObject, blocks, order, |order|).None?
  {
    ContentEitherWay(isObject, blocks, order, k);
  }

  /** Going backward over ascending indexes, what was seen is what comes after. */
  lemma SupersededBySeen(blocks: map<int, Block>, order: seq<int>, k: nat)
    requires k < |order| && Ascending(order) && (forall j :: 0 <= j < |order| ==> order[j] in blocks) && forall i :: i in blocks ==> i in order
    ensures Superseded(blocks, order[k]) <==>
              blocks[order[k]].kind in ["thinking", "redacted_thinking", "tool_use"] && FallbackFrom(blocks, order, k + 1)
  {
    if Superseded(blocks, order[k]) {
      var j :| j in blocks && j > order[k] && blocks[j].finalized && blocks[j].kind == "fallback";
      var m :| 0 <= m < |order| && order[m] == j;
      assert m > k;
    }
    if FallbackFrom(blocks, order, k + 1) {
      var j :| k + 1 <= j < |order| && blocks[order[j]].finalized && blocks[order[j]].kind == "fallback";
      assert order[j] in blocks && order[j] > order[k];
    }
  }

  lemma OneMoreName(base: Fields, delta: Fields, names: set<string>, name: string)
    requires name in delta
    ensures base + NonNull(delta, names + {name}) ==
            if delta[name] != Null then (base + NonNull(delta, names))[name := delta[name]] else base + NonNull(delta, names)
  {
    var more, less := NonNull(delta, names + {name}), NonNull(delta, names);
    assert more == if delta[name] != Null then less[name := delta[name]] else less;
  }

  /** The loop over a delta's members. */
  method Overlaid(base: Fields, delta: Fields) returns (r: Fields)
    ensures r == base + NonNull(delta, delta.Keys)
  {
    r := base;
    var names := delta.Keys;
    while names != {}
      invariant names <= delta.Keys && r == base + NonNull(delta, delta.Keys - names)
      decreases |names|
    {
      var name :| name in names;
      OneMoreName(base, delta, delta.Keys - names, name);
      assert delta.Keys - (names - {name}) == (delta.Keys - names) + {name};
      names := names - {name};
      if delta[name] != Null { r := r[name := delta[name]]; }
    }
    assert delta.Keys - {} == delta.Keys;
  }

  class MessageBuilder {
    var fields: Fields
    var blocks: map<int, BlockContentBuilder>

    function Repr(): set<object>
      reads this
    {
      {this} + set i | i in blocks :: blocks[i]
    }

    /** No block is built twice. */
    ghost predicate Valid()
      reads this
    {
      forall i, j :: i in blocks && j in blocks && i != j ==> blocks[i] != blocks[j]
    }

    function View(): Message
      reads Repr()
    {
      Message.Message(fields, map i | i in blocks :: blocks[i].View())
    }

    constructor (f: Fields)
      ensures Valid() && fresh(Repr()) && View() == Message.Message(f, map[])
    {
      fields, blocks := f, map[];
    }

    method Update(delta: Decoded, usage: Decoded) returns (ok: bool)
      requires Valid()
      modifies this`fields
      ensures Valid() && Repr() == old(Repr())
      ensures ok <==> UpdateFields(old(fields), delta, usage).Some?
      ensures ok ==> View() == old(View()).(fields := UpdateFields(old(fields), delta, usage).value)
    {
      if delta.Broken? { return false; }
      if delta.Fields? { fields := Overlaid(fields, delta.fields); }
      if usage.Broken? { return false; }
      if usage.Fields? {
        fields := fields["usage" := MergeUsage(if "usage" in fields then fields["usage"] else Null, Object(usage.fields))];
      }
      ok := true;
    }

    method StartBlock(index: int, raw: Decoded) returns (ok: bool)
      requires Valid()
      modifies this`blocks
      ensures Valid() && fresh(Repr() - old(Repr()))
      ensures ok <==> index !in old(blocks) && NewBlock(raw).Some?
      ensures View() == if ok then old(View()).(blocks := old(View()).blocks[index := NewBlock(raw).value]) else old(View())
    {
      if index in blocks { return false; }
      var parsed := NewBlock(raw);
      if parsed.None? { return false; }
      var block := new BlockContentBuilder(parsed.value);
      blocks := blocks[index := block];
      ok := true;
    }

    /** From the last block to the first, remembering whether a fallback was seen. */
    method BuildContent(isObject: string -> bool, order: seq<int>, ghost views: map<int, Block>) returns (r: Option<seq<Fields>>)
      requires Ascending(order) && (forall j :: 0 <= j < |order| ==> order[j] in views) && (forall i :: i in views ==> i in order)
      requires forall i :: i in views <==> i in blocks
      requires forall i :: i in blocks ==> blocks[i].View() == views[i]
      ensures r == Content(isObject, views, order, |order|)
    {
      hide BuildBlock, Content, Superseded;
      var content: seq<Fields> := [];
      var superseded := false;
      var k: nat := |order|;
      while k > 0
        invariant k <= |order|
        invariant superseded <==> FallbackFrom(views, order, k)
        invariant ContentFrom(isObject, views, order, k) == Some(content)
      {
        SupersededBySeen(views, order, k - 1);
        k := k - 1;
        var builder := blocks[order[k]];
        assert views[order[k]] == builder.View();
        if !builder.finalized { continue; }
        if builder.kind == "fallback" { superseded := true; }
        if superseded && builder.kind in ["thinking", "redacted_thinking", "tool_use"] { continue; }
        var block := builder.Build(isObject);
        if block.None? {
          NoContent(isObject, views, order, k);
          return None;
        }
        content := [block.value] + content;
      }
      ContentBackward(isObject, views, order);
      r := Some(content);
    }

    /** build: the blocks in index order. */
    method Build(isObject: string -> bool) returns (r: Option<Built>)
      ensures r == BuildMessage(isObject, View())
    {
      hide Content;
      ghost var view := View();
      var order := Sorted(blocks.Keys);
      assert view.blocks.Keys == blocks.Keys;
      var content := BuildContent(isObject, order, view.blocks);
      assert View() == view;
      if content.None? { return None; }
      r := Some(Built(fields - {"content"}, content.value));
    }
  }

  class StreamingState {
    var message: MessageBuilder?
    var body: Option<Built>
    var terminal: bool
    var error: Option<string>

    function Repr(): set<object>
      reads this, message
    {
      {this} + if message == null then {} else message.Repr()
    }

    ghost predicate Valid()
      reads Repr()
    {
      message != null ==> message.Valid()
    }

    function View(): State
      reads Repr()
    {
      State(if message == null then None else Some(message.View()), body, terminal, error)
    }

    constructor ()
      ensures Valid() && fresh(Repr()) && View() == START
    {
      message, body, terminal, error := null, None, false, None;
    }

    method ObserveBlockEvent(index: int, e: Event) returns (ok: bool)
      requires Valid() && message != null && IsBlockEvent(e)
      modifies message, set i | i in message.blocks :: message.blocks[i]
      ensures Valid() && fresh(Repr() - old(Repr()))
      ensures ok <==> ObserveBlock(old(message.View()), index, e).Some?
      ensures ok ==> message.View() == ObserveBlock(old(message.View()), index, e).value
    {
      if e.BlockStart? {
        ok := message.StartBlock(index, e.block);
        return;
      }
      if index !in message.blocks { return false; }
      var block := message.blocks[index];
      ghost var before := message.View();
      assert forall i :: i in message.blocks && i != index ==> message.blocks[i] != block;
      if e.BlockDelta? {
        ok := block.HandleDelta(e.change);
        if !ok { return; }
      } else {
        block.HandleStop();
      }
      forall i | i in message.blocks && i != index ensures message.blocks[i].View() == before.blocks[i] {}
      assert message.View().blocks == before.blocks[index := block.View()];
      ok := true;
    }

    /** observe: one event of the stream. */
    method Observe(isObject: string -> bool, e: Event) returns (ok: bool)
      requires Valid()
      modifies Repr()
      ensures Valid() && fresh(Repr() - old(Repr()))
      ensures ok <==> StreamAssembler.Observe(isObject, old(View()), e).Some?
      ensures ok ==> View() == StreamAssembler.Observe(isObject, old(View()), e).value
    {
      hide UpdateFields, BuildMessage, ObserveBlock;
      if terminal { return true; }
      if error.Some? { return false; }
      match e {
        case BadEvent =>
          return false;
        case MessageStart(raw) =>
          if message != null { return false; }
          if !raw.Fields? { return false; }
          message := new MessageBuilder(raw.fields);
        case MessageDelta(delta, usage) =>
          if message == null { return false; }
          ok := message.Update(delta, usage);
          return;
        case MessageStop =>
          if message == null { return false; }
          var built := message.Build(isObject);
          if built.None? { return false; }
          body, terminal := built, true;
          message := null;
        case ErrorEvent(data) =>
          error := Some(data);
        case OtherEvent =>
        case _ =>
          if message == null { return false; }
          if e.index.None? || e.index.value < 0 { return false; }
          ok := ObserveBlockEvent(e.index.value, e);
          return;
      }
      ok := true;
    }

    /** unwrap: an error event wins, with its data as the body, then the stop; a stream may not
        just end. */
    method Unwrap() returns (r: Unwrapped)
      requires Valid()
      ensures r == if error.Some? then ProviderError(error.value) else if !terminal then UnexpectedEnd else Complete(body)
    {
      if error.Some? { return ProviderError(error.value); }
      if !terminal { return UnexpectedEnd; }
      r := Complete(body);
    }
  }
}
