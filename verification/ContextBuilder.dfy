/**
  The context builder and its compaction (harness/contextbuilder/builder.go,
  compaction.go), on values.

  `State` is the builder; its functions say what each operation makes of it. The
  `Builder` class in BuilderObject.dfy updates fields in place and is proved against
  these functions.
 */
module ContextBuilder {
  import opened Llm

  const RUNNING_PAYLOAD := [TextPart("Tool call is still running. Its result arrives in a later turn: continue with independent work, or end your turn to wait for it.")]
  const COMPACTION_REQUEST := "This is system message. You are performing context compaction. Return only the text of a handoff summary for another LLM assistant to resume the original task."
  const RETAINED_TOKENS := 20_000

  datatype Model = Model(id: string, compactionThreshold: int, maxOutputTokens: Option<int>, reasoningEffort: string)
  datatype Tool = Tool(kind: string, name: string, description: string, parameters: string)
  datatype Request = Request(model: Model, input: seq<Item>, tools: seq<Tool>)
  datatype Response = Response(output: seq<Item>, inputTokens: int, outputTokens: int, complete: bool)
  datatype Settings = Settings(model: string, compactionThreshold: Option<int>, maxOutputTokens: Option<int>, reasoningEffort: string)

  /** A checkpoint: the exclusive end of a response in the committed prefix. */
  datatype PrefixToken = PrefixToken(end: nat, tokens: int)

  datatype State = State(
    model: Model, tools: seq<Tool>, preamble: string, systemPrompt: string,
    committed: seq<Item>, staged: seq<Item>, checkpoints: seq<PrefixToken>)

  const NO_MODEL := Model("", 0, None, "")

  function SystemItem(preamble: string, prompt: string): Item {
    Message(RoleSystem, TrimSpace(preamble + "\n\n" + prompt))
  }

  function UserItem(text: string): Item { Message(RoleUser, text) }

  /** Every checkpoint points into the committed prefix, past the system message. */
  predicate CheckpointsInRange(s: State) {
    && s.committed != []
    && forall i :: 0 <= i < |s.checkpoints| ==> 1 <= s.checkpoints[i].end <= |s.committed|
  }

  /** newBuilder. */
  function NewBuilder(preamble: string): State {
    State(NO_MODEL, [], preamble, "", [SystemItem(preamble, "")], [], [])
  }

  function SetSystemPrompt(s: State, prompt: string): State
    requires s.committed != []
  {
    s.(systemPrompt := prompt, committed := s.committed[0 := SystemItem(s.preamble, prompt)])
  }

  function StageUser(s: State, text: string): State { s.(staged := s.staged + [UserItem(text)]) }

  function ApplySettings(s: State, settings: Settings): State {
    var renamed :=
      if settings.model != "" && s.model.id != settings.model
      then s.(model := s.model.(id := settings.model), checkpoints := []) else s;
    renamed.(model := Model(
      renamed.model.id,
      match settings.compactionThreshold case Some(v) => v case None => s.model.compactionThreshold,
      if settings.maxOutputTokens.Some? then settings.maxOutputTokens else s.model.maxOutputTokens,
      if settings.reasoningEffort != "" then settings.reasoningEffort else s.model.reasoningEffort))
  }

  function AddModelResponse(s: State, r: Response): State {
    s.(committed := s.committed + r.output,
       checkpoints := s.checkpoints + [PrefixToken(|s.committed| + |r.output|, Wrap64(r.inputTokens + r.outputTokens))])
  }

  predicate IsRunningResult(item: Item, id: string) {
    item.ToolResult? && item.callID == id && item.running
  }

  /** The first of `staged[i..]` that is a running result for `id`, or the length. */
  function RunningIndex(staged: seq<Item>, id: string, i: nat): (r: nat)
    requires i <= |staged|
    ensures i <= r <= |staged|
    ensures r < |staged| ==> IsRunningResult(staged[r], id)
    ensures forall j :: i <= j < r ==> !IsRunningResult(staged[j], id)
    decreases |staged| - i
  {
    if i == |staged| || IsRunningResult(staged[i], id) then i else RunningIndex(staged, id, i + 1)
  }

  function ResultItem(id: string, payload: seq<Part>, running: bool): Item {
    ToolResult(id, if running then RUNNING_PAYLOAD else payload, running)
  }

  /** A result replaces the running one staged for the same call, or is appended. */
  function StageResult(staged: seq<Item>, result: Item): seq<Item>
    requires result.ToolResult?
  {
    var i := RunningIndex(staged, result.callID, 0);
    if i < |staged| then staged[i := result] else staged + [result]
  }

  function AddToolResult(s: State, id: string, payload: seq<Part>, running: bool): State {
    s.(staged := StageResult(s.staged, ResultItem(id, payload, running)))
  }

  function Commit(s: State): State { s.(committed := s.committed + s.staged, staged := []) }

  function Build(s: State): Request { Request(s.model, s.committed + s.staged, s.tools) }

  function NeedsCompaction(s: State): bool {
    s.checkpoints != [] && s.checkpoints[|s.checkpoints| - 1].tokens >= s.model.compactionThreshold
  }

  // ------------------------------------------------------------- compaction

  function Latest(checkpoints: seq<PrefixToken>): int
    requires checkpoints != []
  {
    checkpoints[|checkpoints| - 1].tokens
  }

  /** The retained turns after this checkpoint fit the budget. */
  predicate WithinBudget(checkpoints: seq<PrefixToken>, i: nat)
    requires i < |checkpoints|
  {
    Wrap64(Latest(checkpoints) - checkpoints[i].tokens) <= RETAINED_TOKENS
  }

  /** Where the run of checkpoints within budget that ends before `k` begins. */
  function BudgetStart(checkpoints: seq<PrefixToken>, k: nat): (start: nat)
    requires k <= |checkpoints|
    ensures start <= k
    ensures forall i :: start <= i < k ==> WithinBudget(checkpoints, i)
    ensures start > 0 ==> !WithinBudget(checkpoints, start - 1)
  {
    if k == 0 || !WithinBudget(checkpoints, k - 1) then k else BudgetStart(checkpoints, k - 1)
  }

  /** compactionCutoff: the index of the last checkpoint to summarize. It begins the
      longest run of checkpoints, ending with the latest, that all fit the budget. */
  function Cutoff(checkpoints: seq<PrefixToken>): (r: Option<nat>)
    ensures r.None? <==> checkpoints == [] || Latest(checkpoints) <= RETAINED_TOKENS
    ensures r.Some? ==>
              && r.value < |checkpoints|
              && (forall i :: r.value <= i < |checkpoints| ==> WithinBudget(checkpoints, i))
              && (r.value > 0 ==> !WithinBudget(checkpoints, r.value - 1))
  {
    if checkpoints == [] || Latest(checkpoints) <= RETAINED_TOKENS then None
    else Some(BudgetStart(checkpoints, |checkpoints|))
  }

  datatype PendingCall = PendingCall(item: Item, result: Option<Item>)
  datatype PendingCalls = PendingCalls(calls: map<string, PendingCall>, order: seq<string>)

  /** One item of collectPendingToolCalls. */
  function CollectItem(p: PendingCalls, item: Item): PendingCalls {
    match item
    case ToolCall(id, _, _) => PendingCalls(p.calls[id := PendingCall(item, None)], p.order + [id])
    case ToolResult(id, _, running) =>
      if id !in p.calls then p
      else if running then p.(calls := p.calls[id := p.calls[id].(result := Some(item))])
      else p.(calls := p.calls - {id})
    case _ => p
  }

  /** collectPendingToolCalls over the items from `a` to `k`. */
  function Collect(items: seq<Item>, a: nat, k: nat): PendingCalls
    requires a <= k <= |items|
  {
    if a == k then PendingCalls(map[], []) else CollectItem(Collect(items, a, k - 1), items[k - 1])
  }

  /** The running results BuildCompaction adds for calls that have none. */
  function MissingResults(staged: seq<Item>, p: PendingCalls, n: nat): seq<Item>
    requires n <= |p.order|
  {
    if n == 0 then staged
    else
      var before := MissingResults(staged, p, n - 1);
      var id := p.order[n - 1];
      if id in p.calls && p.calls[id].result.None? then StageResult(before, ResultItem(id, [], true)) else before
  }

  function BuildCompaction(s: State, prompt: string): Option<Request>
    requires CheckpointsInRange(s)
  {
    match Cutoff(s.checkpoints)
    case None => None
    case Some(cutoff) =>
      var end := s.checkpoints[cutoff].end;
      var pending := Collect(s.committed, 1, end);
      var staged := MissingResults(s.committed[1..end], pending, |pending.order|) + [UserItem(COMPACTION_REQUEST)];
      Some(Request(s.model, [SystemItem(prompt, "")] + staged, []))
  }

  /** The last non-blank assistant message among the first `n` items of a response. */
  function Summary(output: seq<Item>, n: nat): string
    requires n <= |output|
  {
    if n == 0 then ""
    else if output[n - 1].Message? && output[n - 1].role.RoleAssistant? && TrimSpace(output[n - 1].text) != ""
    then output[n - 1].text
    else Summary(output, n - 1)
  }

  /** carryForwardContext's loop: the pending calls with their latest running result. */
  function CarryForward(staged: seq<Item>, p: PendingCalls, n: nat): seq<Item>
    requires n <= |p.order|
  {
    if n == 0 then staged
    else
      var before := CarryForward(staged, p, n - 1);
      var id := p.order[n - 1];
      if id !in p.calls then before
      else
        match p.calls[id].result
        case Some(ToolResult(_, output, running)) => StageResult(before + [p.calls[id].item], ResultItem(id, output, running))
        case _ => before + [p.calls[id].item]
  }

  /** Compact: None leaves the builder as it is. */
  function Compact(s: State, r: Response): Option<State>
    requires CheckpointsInRange(s)
  {
    match Cutoff(s.checkpoints)
    case None => None
    case Some(cutoff) =>
      var start := s.checkpoints[cutoff].end;
      var pending := Collect(s.committed, 1, start);
      var carried := CarryForward([UserItem(Summary(r.output, |r.output|))], pending, |pending.order|);
      Some(State(s.model, s.tools, s.preamble, s.systemPrompt,
                 [SystemItem(s.preamble, s.systemPrompt)] + carried + s.committed[start..], s.staged, []))
  }
}
