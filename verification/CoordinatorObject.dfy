/**
  The coordinator as the object it is (harness/coordinator/loop.go): its methods update
  maps, counters and the context builder in place, and are proved against the functions
  of Coordinator.
 */
module CoordinatorObject {
  import opened Llm
  import CB = ContextBuilder
  import BO = BuilderObject
  import opened SessionState
  import opened Coordinator

  class LoopCoordinator {
    const tools: Tools
    var contextBuilder: BO.Builder
    var currentTurnID: string
    var compacting: bool
    var toolCalls: map<StatusKey, Call>
    var operations: map<string, Operation>
    var availableInputs: int
    var deliveredInputs: int
    var currentTurnInputs: int
    var grace: bool
    var graceToolCalls: set<StatusKey>

    ghost function View(): Local
      reads this, contextBuilder
    {
      Local(currentTurnID, compacting, toolCalls, operations, availableInputs, deliveredInputs, currentTurnInputs, contextBuilder.View())
    }

    constructor (t: Tools, builder: BO.Builder)
      ensures View() == NewLocal(builder.View()) && tools == t && contextBuilder == builder && !grace && graceToolCalls == {}
    {
      tools, contextBuilder := t, builder;
      currentTurnID, compacting, toolCalls, operations := "", false, map[], map[];
      availableInputs, deliveredInputs, currentTurnInputs := 0, 0, 0;
      grace, graceToolCalls := false, {};
    }

    method ClearToolGrace()
      modifies this`grace, this`graceToolCalls
      ensures !grace && graceToolCalls == {}
    {
      graceToolCalls := {};
      grace := false;
    }

    /** The call is no longer open, nor waited for; its result is one more input. */
    method FinishToolCall(turnID: string, callID: string)
      modifies this`toolCalls, this`grace, this`graceToolCalls, this`availableInputs
      ensures View() == Finish(old(View()), StatusKey(turnID, callID))
      ensures graceToolCalls == old(graceToolCalls) - {StatusKey(turnID, callID)}
      ensures grace <==> old(grace) && graceToolCalls != {}
    {
      var key := StatusKey(turnID, callID);
      toolCalls := toolCalls - {key};
      graceToolCalls := graceToolCalls - {key};
      if |graceToolCalls| == 0 { ClearToolGrace(); }
      availableInputs := availableInputs + 1;
    }

    method ToolCallOperationsAreTerminal(turnID: string, callID: string) returns (terminal: bool)
      ensures var key := StatusKey(turnID, callID);
              terminal <==> AllTerminal(if key in toolCalls then toolCalls[key].operations else {}, operations)
    {
      var key := StatusKey(turnID, callID);
      var all := if key in toolCalls then toolCalls[key].operations else {};
      var ids := all;
      while ids != {}
        invariant ids <= all && AllTerminal(all - ids, operations)
        decreases |ids|
      {
        var id :| id in ids;
        if id !in operations || !Terminal(operations[id].status) { return false; }
        ids := ids - {id};
      }
      assert all - ids == all;
      terminal := true;
    }

    method AddOperationToLocalState(value: Operation)
      modifies this`operations
      ensures operations == old(operations)[value.id := value]
    {
      operations := operations[value.id := value];
    }

    method AddToolCallsToLocalState(turnID: string, response: CB.Response)
      modifies this`toolCalls
      ensures toolCalls == RegisterCalls(old(toolCalls), turnID, response.output, |response.output|)
    {
      for i := 0 to |response.output|
        invariant toolCalls == RegisterCalls(old(toolCalls), turnID, response.output, i)
      {
        match response.output[i] {
          case ToolCall(callID, name, _) => toolCalls := toolCalls[StatusKey(turnID, callID) := Call(name, None, {})];
          case _ =>
        }
      }
    }

    method AddToolCallOperationsToLocalState(status: ToolCallStatus)
      modifies this`toolCalls
      ensures toolCalls == NoteStatus(old(toolCalls), status)
    {
      var key := StatusKey(status.turnID, status.callID);
      if key !in toolCalls { return; }
      var call := toolCalls[key].(status := Some(status.status));
      for i := 0 to |status.status.waitingFor|
        invariant call == toolCalls[key].(status := Some(status.status), operations := call.operations)
        invariant call.operations == toolCalls[key].operations + Elements(status.status.waitingFor[..i])
      {
        assert status.status.waitingFor[..i + 1] == status.status.waitingFor[..i] + [status.status.waitingFor[i]];
        call := call.(operations := call.operations + {status.status.waitingFor[i]});
      }
      assert status.status.waitingFor[..|status.status.waitingFor|] == status.status.waitingFor;
      toolCalls := toolCalls[key := call];
    }

    /** The operations a status waits for, or that it cannot be told yet. */
    method CollectOperations(status: ToolCallStatus, call: Call) returns (known: bool, collected: seq<Operation>)
      ensures known <==> Known(status.status.waitingFor, call, operations)
      ensures known ==> collected == Snapshots(status.status.waitingFor, operations)
    {
      collected := [];
      var ids := status.status.waitingFor;
      for i := 0 to |ids|
        invariant forall j :: 0 <= j < i ==> ids[j] in call.operations && ids[j] in operations
        invariant |collected| == i && forall j :: 0 <= j < i ==> collected[j] == operations[ids[j]]
      {
        if ids[i] !in call.operations || ids[i] !in operations { return false, []; }
        collected := collected + [operations[ids[i]]];
      }
      known := true;
    }

    method AddToolResultToLocalState(status: ToolCallStatus) returns (ok: bool)
      modifies this`toolCalls, this`grace, this`graceToolCalls, this`availableInputs, contextBuilder
      ensures ok <==> AddResult(tools, old(View()), status).Some?
      ensures View() == if ok then AddResult(tools, old(View()), status).value else old(View())
    {
      var key := StatusKey(status.turnID, status.callID);
      if key !in toolCalls { return true; }
      var call := toolCalls[key];
      if !tools.available(call.name) {
        if !RequiresTranslator(status) {
          contextBuilder.AddToolResult(status.callID, [TextPart(status.status.error)], false);
          FinishToolCall(status.turnID, status.callID);
        }
        return true;
      }
      var known, collected := CollectOperations(status, call);
      if !known { return true; }
      var result := tools.result(call.name, status.callID, status.status, collected);
      if result.None? { return false; }
      var terminal := ToolCallOperationsAreTerminal(status.turnID, status.callID);
      contextBuilder.AddToolResult(status.callID, result.value, !terminal);
      if terminal { FinishToolCall(status.turnID, status.callID); }
      ok := true;
    }

    /** A complete compaction replaces the builder by the one it rebuilt. */
    method ApplyCompactionResponse(response: CB.Response)
      requires CB.CheckpointsInRange(contextBuilder.View())
      modifies this`contextBuilder
      ensures contextBuilder == old(contextBuilder) || fresh(contextBuilder)
      ensures contextBuilder.View() == ApplyCompaction(old(contextBuilder.View()), response)
    {
      if !response.complete { return; }
      var rebuilt, compacted := contextBuilder.Compact(response);
      if compacted { contextBuilder := rebuilt; }
    }

    method AddInputToLocalState(input: Input) returns (ok: bool)
      modifies this`availableInputs, contextBuilder
      ensures ok <==> AddInput(old(View()), input).Some?
      ensures ok ==> View() == AddInput(old(View()), input).value
    {
      if !ValidInput(input) { return false; }
      if input.kind.ExternalInput? {
        var text := if input.payload.Text? then Some(input.payload.text) else None;
        ok := contextBuilder.AddExternalInput(BO.Input(true, text));
        if !ok { return false; }
        availableInputs := availableInputs + 1;
      }
      if input.kind.ControlInput? {
        var request := input.payload.message;
        contextBuilder.AddControlMessage(
          match request
          case UpdateSettings(settings) => BO.UpdateSettings(settings)
          case Heartbeat(reason) => BO.Heartbeat(reason)
          case _ => BO.OtherControl);
        if request.Heartbeat? { availableInputs := availableInputs + 1; }
      }
      ok := true;
    }

    method AddResponseToLocalState(turnID: string, response: CB.Response)
      requires CB.CheckpointsInRange(contextBuilder.View())
      modifies this, contextBuilder
      ensures contextBuilder == old(contextBuilder) || fresh(contextBuilder)
      ensures View() == AddResponse(old(View()), turnID, response)
    {
      if compacting && turnID == currentTurnID {
        ApplyCompactionResponse(response);
        return;
      }
      contextBuilder.AddModelResponse(response);
      if turnID == currentTurnID { deliveredInputs := currentTurnInputs; }
      AddToolCallsToLocalState(turnID, response);
    }

    method AddStatusToLocalState(status: ToolCallStatus) returns (ok: bool)
      modifies this, contextBuilder
      ensures contextBuilder == old(contextBuilder)
      ensures ok <==> AddStatus(tools, old(View()), status).Some?
      ensures ok ==> View() == AddStatus(tools, old(View()), status).value
    {
      for i := 0 to |status.operations|
        invariant contextBuilder == old(contextBuilder)
        invariant View() == old(View()).(operations := AddOperations(old(operations), status.operations, i))
      {
        AddOperationToLocalState(status.operations[i]);
      }
      AddToolCallOperationsToLocalState(status);
      ok := AddToolResultToLocalState(status);
    }

    /** One recorded item, live or from the log. */
    method AddItemToLocalState(data: Data) returns (ok: bool)
      requires CB.CheckpointsInRange(contextBuilder.View())
      modifies this, contextBuilder
      ensures contextBuilder == old(contextBuilder) || fresh(contextBuilder)
      ensures ok <==> AddItem(tools, old(View()), data).Some?
      ensures ok ==> View() == AddItem(tools, old(View()), data).value
    {
      match data {
        case ForkData(_, _) =>
          toolCalls, operations := map[], map[];
          ClearToolGrace();
          ok := true;
        case InputData(input) =>
          ok := AddInputToLocalState(input);
        case TurnData(turn) =>
          currentTurnID, compacting := turn.id, turn.compaction;
          currentTurnInputs := availableInputs;
          if !turn.compaction { contextBuilder.Commit(); }
          ok := true;
        case ResponseData(turnID, response) =>
          AddResponseToLocalState(turnID, response);
          ok := true;
        case StatusData(status) =>
          ok := AddStatusToLocalState(status);
      }
    }

    /** restore: every item of the history, then the operations to resume. */
    method RestoreFrom(stored: Stored) returns (ok: bool)
      requires CB.CheckpointsInRange(contextBuilder.View()) && View() == NewLocal(contextBuilder.View())
      modifies this, contextBuilder
      ensures ok <==> Restore(tools, old(contextBuilder.View()), stored).Some?
      ensures ok ==> View() == Restore(tools, old(contextBuilder.View()), stored).value
    {
      hide AddItem, LoadHistory, CB.CheckpointsInRange, Resume;
      ghost var base := contextBuilder.View();
      var items := stored.items;
      LoadStarts(tools, base, items);
      for i := 0 to |items|
        invariant contextBuilder == old(contextBuilder) || fresh(contextBuilder)
        invariant LoadHistory(tools, base, items, i) == Some(View())
      {
        LoadStep(tools, base, items, i, View());
        var stuck := NeedsMissingTool(items[i].data);
        if stuck {
          LoadStops(tools, base, items, i + 1);
          return false;
        }
        ok := AddItemToLocalState(items[i].data);
        if !ok {
          LoadStops(tools, base, items, i + 1);
          return false;
        }
      }
      var resumed := Resume(stored).operations;
      for i := 0 to |resumed|
        invariant View() == LoadHistory(tools, base, items, |items|).value.(
                              operations := AddOperations(LoadHistory(tools, base, items, |items|).value.operations, resumed, i))
      {
        AddOperationToLocalState(resumed[i]);
      }
      ok := true;
    }

    /** restoreItem's check. */
    method NeedsMissingTool(data: Data) returns (stuck: bool)
      ensures stuck <==>
              && data.StatusData? && RequiresTranslator(data.status)
              && StatusKey(data.status.turnID, data.status.callID) in toolCalls
              && !tools.available(toolCalls[StatusKey(data.status.turnID, data.status.callID)].name)
    {
      if !data.StatusData? || !RequiresTranslator(data.status) { return false; }
      var key := StatusKey(data.status.turnID, data.status.callID);
      stuck := key in toolCalls && !tools.available(toolCalls[key].name);
    }
  }

  lemma LoadStarts(tools: Tools, base: CB.State, items: seq<Entry>)
    requires CB.CheckpointsInRange(base)
    ensures LoadHistory(tools, base, items, 0) == Some(NewLocal(base))
  {
  }

  lemma LoadStep(tools: Tools, base: CB.State, items: seq<Entry>, i: nat, l: Local)
    requires CB.CheckpointsInRange(base) && i < |items| && LoadHistory(tools, base, items, i) == Some(l)
    ensures CB.CheckpointsInRange(l.builder) && LoadHistory(tools, base, items, i + 1) == RestoreItem(tools, l, items[i].data)
  {
    hide RestoreItem;
  }

  lemma {:induction false} LoadStops(tools: Tools, base: CB.State, items: seq<Entry>, k: nat)
    requires CB.CheckpointsInRange(base) && k <= |items| && LoadHistory(tools, base, items, k).None?
    ensures LoadHistory(tools, base, items, |items|).None?
    decreases |items| - k
  {
    if k < |items| { LoadStops(tools, base, items, k + 1); }
  }
}
