/**
  The context builder as the object it is: its methods update the fields in place,
  loop over them, and are proved against the functions of ContextBuilder.
 */
module BuilderObject {
  import opened Llm
  import opened ContextBuilder

  datatype ControlMessage = UpdateSettings(settings: Settings) | Heartbeat(reason: string) | OtherControl

  /** An inbox input; `text` is what decoding its payload as a JSON string gives. */
  datatype Input = Input(external: bool, text: Option<string>)

  /** collectPendingToolCalls. */
  method CollectPendingToolCalls(items: seq<Item>, a: nat, b: nat) returns (p: PendingCalls)
    requires a <= b <= |items|
    ensures p == Collect(items, a, b)
  {
    var calls: map<string, PendingCall> := map[];
    var order: seq<string> := [];
    for i := a to b
      invariant PendingCalls(calls, order) == Collect(items, a, i)
    {
      var item := items[i];
      match item {
        case ToolCall(id, _, _) =>
          calls := calls[id := PendingCall(item, None)];
          order := order + [id];
        case ToolResult(id, _, running) =>
          if id in calls {
            if running {
              calls := calls[id := calls[id].(result := Some(item))];
            } else {
              calls := calls - {id};
            }
          }
        case _ =>
      }
    }
    p := PendingCalls(calls, order);
  }

  class Builder {
    var model: Model
    var tools: seq<Tool>
    var preamble: string
    var systemPrompt: string
    var committedPrefix: seq<Item>
    var stagedSuffix: seq<Item>
    var prefixTokens: seq<PrefixToken>

    ghost function View(): State
      reads this
    {
      State(model, tools, preamble, systemPrompt, committedPrefix, stagedSuffix, prefixTokens)
    }

    constructor (currentPreamble: string)
      ensures View() == NewBuilder(currentPreamble)
    {
      model, tools := NO_MODEL, [];
      preamble, systemPrompt := currentPreamble, "";
      committedPrefix := [SystemItem(currentPreamble, "")];
      stagedSuffix, prefixTokens := [], [];
    }

    /** A wrong kind or an undecodable payload leaves the builder alone. */
    method AddExternalInput(input: Input) returns (ok: bool)
      modifies this
      ensures ok <==> input.external && input.text.Some?
      ensures View() == if ok then StageUser(old(View()), input.text.value) else old(View())
    {
      if !input.external || input.text.None? { return false; }
      StageItems([UserItem(input.text.value)]);
      ok := true;
    }

    method SetModel(m: Model)
      modifies this
      ensures View() == old(View()).(model := m)
    {
      model := m;
    }

    method AddControlMessage(request: ControlMessage)
      modifies this
      ensures View() ==
              match request
              case UpdateSettings(settings) => ApplySettings(old(View()), settings)
              case Heartbeat(reason) => StageUser(old(View()), reason)
              case OtherControl => old(View())
    {
      match request {
        case UpdateSettings(settings) =>
          if settings.model != "" && model.id != settings.model {
            model := model.(id := settings.model);
            prefixTokens := [];
          }
          if settings.compactionThreshold.Some? {
            model := model.(compactionThreshold := settings.compactionThreshold.value);
          }
          if settings.maxOutputTokens.Some? {
            model := model.(maxOutputTokens := settings.maxOutputTokens);
          }
          if settings.reasoningEffort != "" {
            model := model.(reasoningEffort := settings.reasoningEffort);
          }
        case Heartbeat(reason) =>
          stagedSuffix := stagedSuffix + [UserItem(reason)];
        case OtherControl =>
      }
    }

    method SetSystemPrompt(prompt: string)
      requires committedPrefix != []
      modifies this
      ensures View() == ContextBuilder.SetSystemPrompt(old(View()), prompt)
    {
      systemPrompt := prompt;
      committedPrefix := committedPrefix[0 := SystemItem(preamble, prompt)];
    }

    method AddModelResponse(response: Response)
      modifies this
      ensures View() == ContextBuilder.AddModelResponse(old(View()), response)
    {
      committedPrefix := committedPrefix + response.output;
      prefixTokens := prefixTokens +
        [PrefixToken(|committedPrefix|, Wrap64(response.inputTokens + response.outputTokens))];
    }

    method AddTool(tool: Tool)
      modifies this
      ensures View() == old(View()).(tools := old(View()).tools + [tool])
    {
      tools := tools + [tool];
    }

    method AddToolResult(callID: string, payload: seq<Part>, running: bool)
      modifies this
      ensures View() == ContextBuilder.AddToolResult(old(View()), callID, payload, running)
    {
      var runningIndex := 0;
      while runningIndex < |stagedSuffix| && !IsRunningResult(stagedSuffix[runningIndex], callID)
        invariant runningIndex <= |stagedSuffix|
        invariant RunningIndex(stagedSuffix, callID, 0) == RunningIndex(stagedSuffix, callID, runningIndex)
      {
        runningIndex := runningIndex + 1;
      }
      var output := if running then RUNNING_PAYLOAD else payload;
      var resultItem := ToolResult(callID, output, running);
      if runningIndex < |stagedSuffix| {
        stagedSuffix := stagedSuffix[runningIndex := resultItem];
        return;
      }
      stagedSuffix := stagedSuffix + [resultItem];
    }

    method StageItems(items: seq<Item>)
      modifies this
      ensures View() == old(View()).(staged := old(View()).staged + items)
    {
      stagedSuffix := stagedSuffix + items;
    }

    method Commit()
      modifies this
      ensures View() == ContextBuilder.Commit(old(View()))
    {
      committedPrefix := committedPrefix + stagedSuffix;
      stagedSuffix := [];
    }

    method Build() returns (r: Request)
      ensures r == ContextBuilder.Build(View())
    {
      r := Request(model, committedPrefix + stagedSuffix, tools);
    }

    method NeedsCompaction() returns (r: bool)
      ensures r == ContextBuilder.NeedsCompaction(View())
    {
      if |prefixTokens| == 0 { return false; }
      var threshold := model.compactionThreshold;
      var tokens := prefixTokens[|prefixTokens| - 1].tokens;
      r := tokens >= threshold;
    }

    /** The backward scan over the checkpoints. */
    method CompactionCutoff() returns (start: nat, ok: bool)
      ensures Cutoff(prefixTokens) == if ok then Some(start) else None
    {
      start, ok := 0, false;
      if |prefixTokens| == 0 { return; }
      var latest := prefixTokens[|prefixTokens| - 1].tokens;
      if latest <= RETAINED_TOKENS { return; }
      ok := true;
      var index := |prefixTokens|;
      start := index;
      while index > 0
        invariant index <= |prefixTokens| && start == index
        invariant BudgetStart(prefixTokens, |prefixTokens|) == BudgetStart(prefixTokens, index)
      {
        if Wrap64(latest - prefixTokens[index - 1].tokens) > RETAINED_TOKENS { break; }
        index := index - 1;
        start := index;
      }
    }

    /** A fresh builder holding the history, a running result for each call without
        one, and the closing message, builds the request. */
    method BuildCompaction(prompt: string) returns (r: Option<Request>)
      requires CheckpointsInRange(View())
      ensures r == ContextBuilder.BuildCompaction(View(), prompt)
    {
      var cutoff, ok := CompactionCutoff();
      if !ok { return None; }
      var end := prefixTokens[cutoff].end;
      var history := committedPrefix[1..end];
      var summarizer := new Builder(prompt);
      summarizer.SetModel(model);
      summarizer.StageItems(history);
      var pending := CollectPendingToolCalls(committedPrefix, 1, end);
      for n := 0 to |pending.order|
        invariant summarizer.View() ==
                  NewBuilder(prompt).(model := model, staged := MissingResults(history, pending, n))
      {
        var callID := pending.order[n];
        if callID in pending.calls && pending.calls[callID].result.None? {
          summarizer.AddToolResult(callID, [], true);
        }
      }
      summarizer.StageItems([UserItem(COMPACTION_REQUEST)]);
      var built := summarizer.Build();
      r := Some(built);
    }

    /** addCompactionSummary: the last assistant message that says something. */
    method AddCompactionSummary(response: Response)
      modifies this
      ensures View() == StageUser(old(View()), Summary(response.output, |response.output|))
    {
      var summary := "";
      var n: nat := |response.output|;
      while n > 0
        invariant n <= |response.output|
        invariant summary == "" && Summary(response.output, |response.output|) == Summary(response.output, n)
      {
        var item := response.output[n - 1];
        if item.Message? && item.role.RoleAssistant? && TrimSpace(item.text) != "" {
          summary := item.text;
          break;
        }
        n := n - 1;
      }
      StageItems([UserItem(summary)]);
    }

    method CarryForwardContext(source: Builder, start: nat)
      requires source != this && 1 <= start <= |source.committedPrefix|
      modifies this
      ensures var pending := Collect(source.committedPrefix, 1, start);
              var s := old(View());
              View() == s.(
                committed := s.committed + CarryForward(s.staged, pending, |pending.order|) + source.committedPrefix[start..],
                staged := source.stagedSuffix)
    {
      var pending := CollectPendingToolCalls(source.committedPrefix, 1, start);
      ghost var s := View();
      for n := 0 to |pending.order|
        invariant View() == s.(staged := CarryForward(s.staged, pending, n))
      {
        var callID := pending.order[n];
        if callID in pending.calls {
          var call := pending.calls[callID];
          StageItems([call.item]);
          if call.result.Some? && call.result.value.ToolResult? {
            AddToolResult(callID, call.result.value.output, call.result.value.running);
          }
        }
      }
      Commit();
      committedPrefix := committedPrefix + source.committedPrefix[start..];
      stagedSuffix := stagedSuffix + source.stagedSuffix;
    }

    /** The original builder is left as it was: a rebuilt one is returned, or itself. */
    method Compact(response: Response) returns (rebuilt: Builder, compacted: bool)
      requires CheckpointsInRange(View())
      ensures compacted <==> ContextBuilder.Compact(View(), response).Some?
      ensures compacted ==> fresh(rebuilt) && rebuilt.View() == ContextBuilder.Compact(View(), response).value
      ensures !compacted ==> rebuilt == this
    {
      var cutoff, ok := CompactionCutoff();
      if !ok { return this, false; }
      var start := prefixTokens[cutoff].end;
      rebuilt := new Builder(preamble);
      rebuilt.SetModel(model);
      rebuilt.SetSystemPrompt(systemPrompt);
      assert rebuilt.committedPrefix == [SystemItem(preamble, systemPrompt)];
      for n := 0 to |tools|
        invariant rebuilt.View() ==
                  ContextBuilder.SetSystemPrompt(NewBuilder(preamble), systemPrompt).(model := model, tools := tools[..n])
      {
        rebuilt.AddTool(tools[n]);
      }
      assert tools[..|tools|] == tools;
      rebuilt.AddCompactionSummary(response);
      assert rebuilt.stagedSuffix == [UserItem(Summary(response.output, |response.output|))];
      rebuilt.CarryForwardContext(this, start);
      compacted := true;
    }
  }
}
