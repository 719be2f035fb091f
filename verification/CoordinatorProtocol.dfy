/**
  The coordinator keeps the builder's protocol (harness/coordinator/loop.go): its open
  calls are the conversation's open calls, so every request it sends is one the Messages
  encoder accepts.
 */
module CoordinatorProtocol {
  import opened Llm
  import CB = ContextBuilder
  import BP = BuilderProtocol
  import MessagesRequest
  import opened SessionState
  import opened Coordinator
  import opened CoordinatorRuns
  import opened CoordinatorRecovery

  /** A call of the ledger and a call of the coordinator stand alike. */
  predicate Alike(ledger: map<string, BP.Phase>, key: StatusKey, call: Call) {
    BP.Open(ledger, key.callID) && (ledger[key.callID].Unanswered? <==> call.status.None?)
  }

  /** The coordinator's calls are the open calls of the ledger, each once. */
  ghost predicate Matches(ledger: map<string, BP.Phase>, calls: map<StatusKey, Call>) {
    && (forall key :: key in calls ==> Alike(ledger, key, calls[key]))
    && (forall id :: BP.Open(ledger, id) ==> exists key :: key in calls && key.callID == id)
    && (forall a, b :: a in calls && b in calls && a.callID == b.callID ==> a == b)
  }

  predicate Spoken(builder: CB.State)
    requires builder.committed != []
  {
    BP.Conversation(builder) != []
  }

  ghost predicate Linked(s: Sys) {
    && BP.Inv(s.local.builder)
    && Matches(BP.Now(s.local.builder), s.local.toolCalls)
    && 0 <= s.local.delivered <= s.local.currentTurnInputs <= s.local.available
    && (s.local.available > 0 || s.vol.callModel || s.vol.needsModel || s.vol.modelTurn.Some? ==> Spoken(s.local.builder))
  }

  // --------------------------------------------------------- on the ledger

  /** A call that gets a result: a running one stays open, a final one closes it. */
  lemma ResultMatches(ledger: map<string, BP.Phase>, calls: map<StatusKey, Call>, key: StatusKey, call: Call, running: bool)
    requires Matches(ledger, calls) && key in calls && call.status.Some?
    ensures var next := ledger[key.callID := if running then BP.Running else BP.Done];
            && Matches(next, if running then calls[key := call] else calls - {key})
            && Matches(next, if running then calls[key := call] else calls[key := call] - {key})
  {
    var next := ledger[key.callID := if running then BP.Running else BP.Done];
    var after := if running then calls[key := call] else calls - {key};
    assert after == if running then calls[key := call] else calls[key := call] - {key};
    forall k | k in after ensures Alike(next, k, after[k]) {
      if k != key { assert Alike(ledger, k, calls[k]); }
    }
    forall id | BP.Open(next, id) ensures exists k :: k in after && k.callID == id {
      if id == key.callID {
        assert key in after;
      } else {
        assert BP.Open(ledger, id);
        var k :| k in calls && k.callID == id;
        assert k in after;
      }
    }
  }

  /** New calls, unanswered, for a turn that had none. */
  lemma CallsMatch(ledger: map<string, BP.Phase>, next: map<string, BP.Phase>, calls: map<StatusKey, Call>, turnID: string, output: seq<Item>)
    requires Matches(ledger, calls) && BP.Adds(ledger, next, BP.CallSet(output))
    requires forall i :: 0 <= i < |output| && output[i].ToolCall? ==> output[i].callID !in ledger
    requires forall key :: key in calls ==> key.turnID != turnID
    ensures Matches(next, RegisterCalls(calls, turnID, output, |output|))
  {
    hide RegisterCalls;
    var after := RegisterCalls(calls, turnID, output, |output|);
    forall key
      ensures key in after <==> key in calls || (key.turnID == turnID && key.callID in BP.CallSet(output))
      ensures key in after && key in calls ==> after[key] == calls[key]
      ensures key in after && key !in calls ==> after[key].status.None?
    {
      Registered(calls, turnID, output, |output|, key);
    }
    forall key | key in after ensures Alike(next, key, after[key]) {
      if key in calls { assert Alike(ledger, key, calls[key]); }
    }
    forall id | BP.Open(next, id) ensures exists key :: key in after && key.callID == id {
      if id in ledger {
        assert BP.Open(ledger, id);
        var key :| key in calls && key.callID == id;
        assert key in after;
      } else {
        assert StatusKey(turnID, id) in after;
      }
    }
    forall a, b | a in after && b in after && a.callID == b.callID ensures a == b {
      if a in calls { assert Alike(ledger, a, calls[a]); }
      if b in calls { assert Alike(ledger, b, calls[b]); }
    }
  }

  /** A compaction keeps every open call and brings none back. */
  lemma CompactedMatches(ledger: map<string, BP.Phase>, next: map<string, BP.Phase>, calls: map<StatusKey, Call>)
    requires Matches(ledger, calls) && BP.Keeps(ledger, next) && BP.Within(next, ledger)
    ensures Matches(next, calls)
  {
    forall key | key in calls ensures Alike(next, key, calls[key]) {
      assert Alike(ledger, key, calls[key]);
    }
    forall id | BP.Open(next, id) ensures exists key :: key in calls && key.callID == id {
      assert BP.Open(ledger, id);
    }
  }

  /** When every call has a status, every call of the ledger has a result. */
  lemma AllAnswered(ledger: map<string, BP.Phase>, l: Local)
    requires Matches(ledger, l.toolCalls) && AllScheduled(l)
    ensures BP.AllHaveResult(ledger)
  {
    forall id | id in ledger ensures ledger[id] != BP.Unanswered {
      if BP.Open(ledger, id) {
        var key :| key in l.toolCalls && key.callID == id;
        assert Alike(ledger, key, l.toolCalls[key]);
      }
    }
  }

  // ------------------------------------------------------------ every action

  /** What a status of an open call does: one result, running or final. */
  lemma StatusEffect(tools: Tools, l: Local, status: ToolCallStatus) returns (payload: seq<Part>, running: bool)
    requires StatusKey(status.turnID, status.callID) in l.toolCalls && AddStatus(tools, l, status).Some?
    requires SelfContained(l, StatusData(status)) && Restorable(tools, l, StatusData(status))
    ensures var key, r := StatusKey(status.turnID, status.callID), AddStatus(tools, l, status).value;
            && r.builder == CB.AddToolResult(l.builder, status.callID, payload, running)
            && r.toolCalls == (if running then NoteStatus(l.toolCalls, status) else NoteStatus(l.toolCalls, status) - {key})
            && r.available == l.available + (if running then 0 else 1)
            && r.delivered == l.delivered && r.currentTurnInputs == l.currentTurnInputs
  {
    hide AddOperations, SelfContained, Known, Snapshots, AllTerminal, CB.AddToolResult;
    ContainedAlike(l, l, status);
    var key := StatusKey(status.turnID, status.callID);
    var operations := AddOperations(l.operations, status.operations, |status.operations|);
    var call := NoteStatus(l.toolCalls, status)[key];
    if tools.available(call.name) {
      running := !AllTerminal(call.operations, operations);
      payload := tools.result(call.name, status.callID, status.status, Snapshots(status.status.waitingFor, operations)).value;
    } else {
      running, payload := false, [TextPart(status.status.error)];
    }
  }

  lemma StatusLinked(env: Env, s: Sys, t: Sys, status: ToolCallStatus)
    requires Linked(s) && StatusKey(status.turnID, status.callID) in s.local.toolCalls
    requires SelfContained(s.local, StatusData(status)) && Restorable(env.tools, s.local, StatusData(status))
    requires AddStatus(env.tools, s.local, status) == Some(t.local)
    requires t.vol.callModel == s.vol.callModel && t.vol.modelTurn == s.vol.modelTurn
    ensures Linked(t)
  {
    hide AddStatus, SelfContained, Restorable, CB.AddToolResult, BP.Inv, Matches, BP.Ledger;
    var key := StatusKey(status.turnID, status.callID);
    InvBuilder(s.local.builder);
    var payload, running := StatusEffect(env.tools, s.local, status);
    var ledger := BP.Now(s.local.builder);
    OpenCall(ledger, s.local.toolCalls, key);
    BP.AddToolResultInv(s.local.builder, status.callID, payload, running);
    InvBuilder(t.local.builder);
    ResultMatches(ledger, s.local.toolCalls, key, NoteStatus(s.local.toolCalls, status)[key], running);
    StaysSpoken(t.local.builder, status.callID);
  }

  lemma OpenCall(ledger: map<string, BP.Phase>, calls: map<StatusKey, Call>, key: StatusKey)
    requires Matches(ledger, calls) && key in calls
    ensures BP.Open(ledger, key.callID)
  {
    assert Alike(ledger, key, calls[key]);
  }

  lemma InvBuilder(builder: CB.State)
    requires BP.Inv(builder)
    ensures CB.CheckpointsInRange(builder) && builder.committed != []
  {
  }

  /** A conversation with a call in it is not empty. */
  lemma StaysSpoken(builder: CB.State, id: string)
    requires builder.committed != [] && id in BP.Now(builder)
    ensures Spoken(builder)
  {
  }

  lemma InputLinked(env: Env, s: Sys, input: Input, at: Time)
    requires CB.CheckpointsInRange(s.local.builder) && Linked(s) && ReceiveInput(env, s, input, at).Some?
    ensures Linked(ReceiveInput(env, s, input, at).value)
  {
    hide BP.Inv, Matches, BP.Ledger, CB.CheckpointsInRange, Replay, CB.ApplySettings, ValidControl;
    var builder := s.local.builder;
    InvBuilder(builder);
    match input.kind
    case ExternalInput =>
      BP.StageUserInv(builder, input.payload.text);
      StagedSpoken(builder, input.payload.text);
    case ControlInput =>
      if input.payload.message.Heartbeat? {
        BP.StageUserInv(builder, input.payload.message.reason);
        StagedSpoken(builder, input.payload.message.reason);
      } else if input.payload.message.UpdateSettings? {
        BP.SettingsInv(builder, input.payload.message.settings);
        SettingsSpoken(builder, input.payload.message.settings);
      }
    case _ =>
  }

  lemma StagedSpoken(builder: CB.State, text: string)
    requires builder.committed != []
    ensures CB.StageUser(builder, text).committed != [] && Spoken(CB.StageUser(builder, text))
  {
  }

  lemma SettingsSpoken(builder: CB.State, settings: CB.Settings)
    requires builder.committed != []
    ensures CB.ApplySettings(builder, settings).committed != []
    ensures Spoken(CB.ApplySettings(builder, settings)) <==> Spoken(builder)
  {
  }

  lemma DecisionLinked(env: Env, s: Sys, turnID: string, at: Time)
    requires CB.CheckpointsInRange(s.local.builder) && Linked(s) && AllScheduled(s.local)
    requires TakeDecision(env, s, turnID, at).Some?
    ensures Linked(TakeDecision(env, s, turnID, at).value)
  {
    hide BP.Inv, Matches, BP.Ledger, CB.CheckpointsInRange, Replay, Compacts, BP.AllHaveResult;
    InvBuilder(s.local.builder);
    var ledger := BP.Now(s.local.builder);
    AllAnswered(ledger, s.local);
    BP.CommitInv(s.local.builder);
    CommitSpoken(s.local.builder);
  }

  lemma CommitSpoken(builder: CB.State)
    requires builder.committed != []
    ensures CB.Commit(builder).committed != [] && (Spoken(CB.Commit(builder)) <==> Spoken(builder))
  {
    assert BP.Conversation(CB.Commit(builder)) == BP.Conversation(builder);
  }

  lemma ResponseLinked(env: Env, s: Sys, response: CB.Response, at: Time)
    requires CB.CheckpointsInRange(s.local.builder) && Linked(s) && CallsFit(env, s) && TurnFits(s)
    requires s.local.compacting || BP.ResponseFits(s.local.builder, response.output)
    requires ReceiveResponse(env, s, response, at).Some?
    ensures Linked(ReceiveResponse(env, s, response, at).value)
  {
    hide BP.Inv, Matches, BP.Ledger, CB.CheckpointsInRange, Replay, CB.AddModelResponse, RegisterCalls, CB.Compact;
    var builder := s.local.builder;
    InvBuilder(builder);
    var ledger := BP.Now(builder);
    if s.local.compacting {
      if response.complete && CB.Compact(builder, response).Some? {
        CompactIsCut(builder, response);
        BP.CompactInv(builder, response);
        var rebuilt := CB.Compact(builder, response).value;
        InvBuilder(rebuilt);
        CompactedMatches(ledger, BP.Now(rebuilt), s.local.toolCalls);
        CompactSpoken(builder, response);
      }
    } else {
      BP.AddModelResponseInv(builder, response);
      InvBuilder(CB.AddModelResponse(builder, response));
      forall key | key in s.local.toolCalls ensures key.turnID != s.local.currentTurnID {
        assert CallFits(env, s, key);
      }
      CallsMatch(ledger, BP.Now(CB.AddModelResponse(builder, response)), s.local.toolCalls, s.local.currentTurnID, response.output);
      ResponseSpoken(builder, response);
    }
  }

  lemma CompactIsCut(builder: CB.State, response: CB.Response)
    requires CB.CheckpointsInRange(builder) && CB.Compact(builder, response).Some?
    ensures CB.Cutoff(builder.checkpoints).Some?
  {
  }

  lemma CompactSpoken(builder: CB.State, response: CB.Response)
    requires BP.Inv(builder) && CB.Cutoff(builder.checkpoints).Some? && CB.Compact(builder, response).value.committed != []
    ensures Spoken(CB.Compact(builder, response).value)
  {
    BP.CompactReplaces(builder, response);
    BP.OpeningMeaning(builder, response);
  }

  lemma ResponseSpoken(builder: CB.State, response: CB.Response)
    requires builder.committed != []
    ensures CB.AddModelResponse(builder, response).committed != []
    ensures Spoken(builder) ==> Spoken(CB.AddModelResponse(builder, response))
  {
  }

  lemma ScheduleLinked(env: Env, s: Sys, key: StatusKey, status: CallStatus, operations: seq<Operation>, at: Time)
    requires CB.CheckpointsInRange(s.local.builder) && Linked(s) && CallsFit(env, s)
    requires Schedule(env, s, key, status, operations, at).Some?
    ensures Linked(Schedule(env, s, key, status, operations, at).value)
  {
    hide Matches, BP.Inv, BP.Ledger, AddStatus, Initialize, CB.CheckpointsInRange;
    assert CallFits(env, s, key);
    var full := ToolCallStatus(key.turnID, key.callID, status, operations);
    var p := Persist(env, s, StatusOf(key, status), operations, at).value;
    InvBuilder(s.local.builder);
    OpenCall(BP.Now(s.local.builder), s.local.toolCalls, key);
    StaysSpoken(s.local.builder, key.callID);
    StatusLinked(env, s, p.(vol := s.vol), full);
    StaysSpokenAfter(env, s, full);
  }

  /** A recorded status leaves a conversation that is not empty. */
  lemma StaysSpokenAfter(env: Env, s: Sys, status: ToolCallStatus)
    requires Linked(s) && StatusKey(status.turnID, status.callID) in s.local.toolCalls
    requires SelfContained(s.local, StatusData(status)) && Restorable(env.tools, s.local, StatusData(status))
    requires AddStatus(env.tools, s.local, status).Some?
    ensures BP.Inv(AddStatus(env.tools, s.local, status).value.builder) && Spoken(AddStatus(env.tools, s.local, status).value.builder)
  {
    hide AddStatus, SelfContained, Restorable, CB.AddToolResult, BP.Inv, Matches, BP.Ledger;
    InvBuilder(s.local.builder);
    var payload, running := StatusEffect(env.tools, s.local, status);
    OpenCall(BP.Now(s.local.builder), s.local.toolCalls, StatusKey(status.turnID, status.callID));
    BP.AddToolResultInv(s.local.builder, status.callID, payload, running);
    InvBuilder(AddStatus(env.tools, s.local, status).value.builder);
    StaysSpoken(AddStatus(env.tools, s.local, status).value.builder, status.callID);
  }

  lemma ReconcileLinked(env: Env, s: Sys, key: StatusKey, at: Time)
    requires CB.CheckpointsInRange(s.local.builder) && Linked(s) && CallsFit(env, s) && Tracks(s.stored, s.local)
    requires Reconcile(env, s, key, at).Some?
    ensures Linked(Reconcile(env, s, key, at).value)
  {
    hide Matches, BP.Inv, BP.Ledger, AddStatus, CB.CheckpointsInRange, LastSnapshot;
    assert CallFits(env, s, key);
    var status := s.local.toolCalls[key].status.value;
    var operations := Snapshots(status.waitingFor, s.local.operations);
    SnapshotsAreKnown(s.stored, s.local, status.waitingFor);
    forall id | id in status.waitingFor ensures id in IDs(operations) {
      var i :| 0 <= i < |status.waitingFor| && status.waitingFor[i] == id;
      assert IDs(operations)[i] == id;
    }
    var full := ToolCallStatus(key.turnID, key.callID, status, operations);
    var p := Persist(env, s, StatusOf(key, status), operations, at).value;
    StatusLinked(env, s, p.(vol := s.vol), full);
  }

  /** Both invariants of a run. */
  ghost predicate Good(env: Env, s: Sys)
    requires CB.CheckpointsInRange(env.base)
  {
    Recoverable(env, s) && Linked(s)
  }

  /** A model answers with items of its own, and with call IDs that are new. */
  predicate Proper(s: Sys, action: Action)
    requires s.local.builder.committed != []
  {
    action.TakeResponse? && !s.local.compacting ==> BP.ResponseFits(s.local.builder, action.response.output)
  }

  lemma StepGood(env: Env, s: Sys, action: Action)
    requires CB.CheckpointsInRange(env.base) && Good(env, s) && Fair(s, action) && Proper(s, action)
    requires Step(env, s, action).Some?
    ensures Good(env, Step(env, s, action).value)
  {
    hide Replays, Tracks, CallsFit, Sound, LoadHistory, Schedule, ReceiveInput, Reconcile, TakeDecision, ReceiveResponse, Restore, Matches, BP.Inv;
    StepRecoverable(env, s, action);
    match action
    case ScheduleCall(key, status, operations, at) => ScheduleLinked(env, s, key, status, operations, at);
    case TakeInput(input, at) => InputLinked(env, s, input, at);
    case ReconcileCall(key, at) => ReconcileLinked(env, s, key, at);
    case Decide(turnID, at) => DecidesFromEvents(env, s, turnID, at); DecisionLinked(env, s, turnID, at);
    case TakeResponse(response, at) => ResponseLinked(env, s, response, at);
    case _ =>
  }

  lemma DecidesFromEvents(env: Env, s: Sys, turnID: string, at: Time)
    requires CB.CheckpointsInRange(s.local.builder) && TakeDecision(env, s, turnID, at).Some? && TurnFits(s)
    ensures AllScheduled(s.local)
  {
  }

  /** `t` is reached from `s` by steps that keep to all of it. */
  predicate Follows(env: Env, s: Sys, actions: seq<Action>, t: Sys)
    requires CB.CheckpointsInRange(s.local.builder) && CB.CheckpointsInRange(env.base)
    decreases |actions|
  {
    if actions == [] then t == s
    else
      && Fair(s, actions[0]) && Proper(s, actions[0]) && Step(env, s, actions[0]).Some?
      && CB.CheckpointsInRange(Step(env, s, actions[0]).value.local.builder)
      && Follows(env, Step(env, s, actions[0]).value, actions[1..], t)
  }

  lemma {:induction false} RunGood(env: Env, s: Sys, actions: seq<Action>, t: Sys)
    requires CB.CheckpointsInRange(env.base) && Good(env, s) && CB.CheckpointsInRange(s.local.builder) && Follows(env, s, actions, t)
    ensures Good(env, t)
    decreases |actions|
  {
    hide Good, Step, Fair, Proper;
    if actions != [] {
      StepGood(env, s, actions[0]);
      RunGood(env, Step(env, s, actions[0]).value, actions[1..], t);
    }
  }

  lemma StartGood(env: Env, session: Session)
    requires BP.Inv(env.base) && BP.Now(env.base) == map[]
    ensures CB.CheckpointsInRange(env.base) && Good(env, Start(env, session))
  {
    StartRecoverable(env, session);
  }

  /** Whatever a run has done, with crashes and compactions in it: when it decides to call
      the model, the request it sends is in an order the encoder accepts. It is refused
      only for an item that cannot be encoded. */
  lemma EveryRequestAccepted(env: Env, session: Session, actions: seq<Action>, s: Sys)
    requires BP.Inv(env.base) && BP.Now(env.base) == map[]
    requires Follows(env, Start(env, session), actions, s)
    requires s.vol.pc.Events? && ShouldCall(s)
    ensures CB.CheckpointsInRange(s.local.builder)
    ensures Compacts(env, s) ==>
              && CB.Cutoff(s.local.builder.checkpoints).Some?
              && (MessagesRequest.Accepts(RequestOf(env, s).input) <==> MessagesRequest.AllEncodable(BP.Dropped(s.local.builder)))
    ensures !Compacts(env, s) ==>
              (MessagesRequest.Accepts(RequestOf(env, s).input) <==> MessagesRequest.AllEncodable(BP.Conversation(s.local.builder)))
  {
    hide Replays, Tracks, CallsFit, Sound, LoadHistory, Matches, BP.Inv, MessagesRequest.Accepts, BP.Ledger, CB.Cutoff, Step, BP.AllHaveResult;
    StartGood(env, session);
    RunGood(env, Start(env, session), actions, s);
    InvBuilder(s.local.builder);
    AllAnswered(BP.Now(s.local.builder), s.local);
    BP.OrdinaryRequest(s.local.builder);
    if Compacts(env, s) {
      CompactionIsCut(s.local.builder, env.prompt);
      BP.CompactionRequest(s.local.builder, env.prompt);
    }
  }

  lemma CompactionIsCut(builder: CB.State, prompt: string)
    requires CB.CheckpointsInRange(builder) && CB.BuildCompaction(builder, prompt).Some?
    ensures CB.Cutoff(builder.checkpoints).Some?
  {
  }

  // ----------------------------------------- a compaction drops what it summarized

  /** `b` would still drop what `a` would, or nothing at all. */
  predicate SameCut(a: CB.State, b: CB.State)
    requires CB.CheckpointsInRange(a) && CB.Cutoff(a.checkpoints).Some?
  {
    b.checkpoints == [] || (CB.CheckpointsInRange(b) && b.checkpoints == a.checkpoints && BP.Dropped(b) == BP.Dropped(a))
  }

  /** While the model is asked for the turn, the turn compacts and the cut stays. */
  ghost predicate CutStays(a: CB.State, turnID: string, s: Sys)
    requires CB.CheckpointsInRange(a) && CB.Cutoff(a.checkpoints).Some?
  {
    && turnID in s.stored.head.turns
    && (s.vol.modelTurn == Some(turnID) ==> s.local.currentTurnID == turnID && s.local.compacting && SameCut(a, s.local.builder))
  }

  lemma OperationKeepsCut(a: CB.State, b: CB.State, op: BP.Op)
    requires CB.CheckpointsInRange(a) && CB.Cutoff(a.checkpoints).Some? && SameCut(a, b)
    requires BP.Inv(b) && CB.CheckpointsInRange(b) && BP.Meanwhile(op) && BP.Inv(BP.Step(b, op))
    ensures SameCut(a, BP.Step(b, op))
  {
    hide BP.Inv, CB.Cutoff, BP.Dropped;
    InvBuilder(BP.Step(b, op));
    if b.checkpoints == [] {
      NoCheckpointsGrow(b, op);
    } else if BP.Step(b, op).checkpoints != [] {
      BP.DroppedKept(b, op);
    }
  }

  lemma NoCheckpointsGrow(b: CB.State, op: BP.Op)
    requires CB.CheckpointsInRange(b) && b.checkpoints == [] && BP.Meanwhile(op)
    ensures BP.Step(b, op).checkpoints == []
  {
  }

  lemma StatusKeepsCut(env: Env, a: CB.State, s: Sys, data: Data, operations: seq<Operation>, at: Time)
    requires CB.CheckpointsInRange(a) && CB.Cutoff(a.checkpoints).Some? && CB.CheckpointsInRange(s.local.builder)
    requires Linked(s) && SameCut(a, s.local.builder) && data.StatusData? && Persist(env, s, data, operations, at).Some?
    requires var full := data.status.(operations := operations);
             && StatusKey(full.turnID, full.callID) in s.local.toolCalls
             && SelfContained(s.local, StatusData(full)) && Restorable(env.tools, s.local, StatusData(full))
    requires BP.Inv(Persist(env, s, data, operations, at).value.local.builder)
    ensures SameCut(a, Persist(env, s, data, operations, at).value.local.builder)
    ensures Persist(env, s, data, operations, at).value.local.currentTurnID == s.local.currentTurnID
    ensures Persist(env, s, data, operations, at).value.local.compacting == s.local.compacting
  {
    hide AddStatus, SelfContained, Restorable, CB.AddToolResult, BP.Inv, Matches, BP.Ledger, Replay, SameCut, CB.Cutoff;
    var full := data.status.(operations := operations);
    var payload, running := StatusEffect(env.tools, s.local, full);
    StatusKeepsTurn(env.tools, s.local, full);
    OperationKeepsCut(a, s.local.builder, BP.GiveResult(full.callID, payload, running));
  }

  lemma StatusKeepsTurn(tools: Tools, l: Local, status: ToolCallStatus)
    requires AddStatus(tools, l, status).Some?
    ensures var r := AddStatus(tools, l, status).value; r.currentTurnID == l.currentTurnID && r.compacting == l.compacting
  {
    hide CB.AddToolResult, AddOperations, AllTerminal, Known, Snapshots, NoteStatus;
  }

  /** Recording keeps every turn known, and adds only one that was not. */
  lemma TurnsGrow(env: Env, s: Sys, data: Data, operations: seq<Operation>, at: Time)
    requires CB.CheckpointsInRange(s.local.builder) && Sound(s.stored) && Persist(env, s, data, operations, at).Some?
    ensures s.stored.head.turns <= Persist(env, s, data, operations, at).value.stored.head.turns
    ensures data.TurnData? ==> data.turn.id !in s.stored.head.turns
  {
    hide AddItem, Replay, Sound;
    SoundFields(s.stored);
    HeadFields(s.stored, data, operations, at);
  }

  lemma ScheduleKeepsCut(env: Env, a: CB.State, turnID: string, s: Sys, key: StatusKey, status: CallStatus, operations: seq<Operation>, at: Time)
    requires CB.CheckpointsInRange(env.base) && CB.CheckpointsInRange(a) && CB.Cutoff(a.checkpoints).Some?
    requires Good(env, s) && CutStays(a, turnID, s) && Schedule(env, s, key, status, operations, at).Some?
    requires BP.Inv(Schedule(env, s, key, status, operations, at).value.local.builder)
    ensures CutStays(a, turnID, Schedule(env, s, key, status, operations, at).value)
  {
    hide Replays, Tracks, Sound, Matches, BP.Inv, BP.Ledger, AddStatus, CB.CheckpointsInRange, SameCut, CB.Cutoff, Initialize, LoadHistory;
    assert CallFits(env, s, key);
    TurnsGrow(env, s, StatusOf(key, status), operations, at);
    if s.vol.modelTurn == Some(turnID) { StatusKeepsCut(env, a, s, StatusOf(key, status), operations, at); }
  }

  lemma ReconcileKeepsCut(env: Env, a: CB.State, turnID: string, s: Sys, key: StatusKey, at: Time)
    requires CB.CheckpointsInRange(env.base) && CB.CheckpointsInRange(a) && CB.Cutoff(a.checkpoints).Some?
    requires Good(env, s) && CutStays(a, turnID, s) && Reconcile(env, s, key, at).Some?
    requires BP.Inv(Reconcile(env, s, key, at).value.local.builder)
    ensures CutStays(a, turnID, Reconcile(env, s, key, at).value)
  {
    hide Replays, Sound, Matches, BP.Inv, BP.Ledger, AddStatus, CB.CheckpointsInRange, SameCut, CB.Cutoff, Replay, LastSnapshot;
    assert CallFits(env, s, key);
    var status := s.local.toolCalls[key].status.value;
    var operations := Snapshots(status.waitingFor, s.local.operations);
    SnapshotsAreKnown(s.stored, s.local, status.waitingFor);
    forall id | id in status.waitingFor ensures id in IDs(operations) {
      var i :| 0 <= i < |status.waitingFor| && status.waitingFor[i] == id;
      assert IDs(operations)[i] == id;
    }
    TurnsGrow(env, s, StatusOf(key, status), operations, at);
    if s.vol.modelTurn == Some(turnID) { StatusKeepsCut(env, a, s, StatusOf(key, status), operations, at); }
  }

  lemma InputKeepsCut(env: Env, a: CB.State, turnID: string, s: Sys, input: Input, at: Time)
    requires CB.CheckpointsInRange(env.base) && CB.CheckpointsInRange(a) && CB.Cutoff(a.checkpoints).Some?
    requires Good(env, s) && CutStays(a, turnID, s) && ReceiveInput(env, s, input, at).Some?
    requires BP.Inv(ReceiveInput(env, s, input, at).value.local.builder)
    ensures CutStays(a, turnID, ReceiveInput(env, s, input, at).value)
  {
    hide Replays, Tracks, CallsFit, Sound, Matches, BP.Inv, BP.Ledger, CB.CheckpointsInRange, SameCut, CB.Cutoff, Replay, CB.ApplySettings, ValidControl;
    TurnsGrow(env, s, InputData(input), [], at);
    var builder := s.local.builder;
    if s.vol.modelTurn == Some(turnID) {
      if input.kind.ExternalInput? {
        OperationKeepsCut(a, builder, BP.StageText(input.payload.text));
      } else if input.kind.ControlInput? && input.payload.message.Heartbeat? {
        OperationKeepsCut(a, builder, BP.StageText(input.payload.message.reason));
      } else if input.kind.ControlInput? && input.payload.message.UpdateSettings? {
        OperationKeepsCut(a, builder, BP.ChangeSettings(input.payload.message.settings));
      }
    }
  }

  lemma DecisionKeepsCut(env: Env, a: CB.State, turnID: string, s: Sys, next: string, at: Time)
    requires CB.CheckpointsInRange(env.base) && CB.CheckpointsInRange(a) && CB.Cutoff(a.checkpoints).Some?
    requires Good(env, s) && CutStays(a, turnID, s) && TakeDecision(env, s, next, at).Some?
    ensures CutStays(a, turnID, TakeDecision(env, s, next, at).value)
  {
    hide Replays, Tracks, CallsFit, Sound, Matches, BP.Inv, CB.CheckpointsInRange, SameCut, CB.Cutoff, Persist, Compacts, ShouldCall, Pending, Idle;
    if !s.vol.stop.Hard? && ShouldCall(s) {
      TurnsGrow(env, s, TurnData(Turn(next, s.local.currentTurnID, Compacts(env, s))), [], at);
    }
  }

  lemma ResponseKeepsCut(env: Env, a: CB.State, turnID: string, s: Sys, response: CB.Response, at: Time)
    requires CB.CheckpointsInRange(env.base) && CB.CheckpointsInRange(a) && CB.Cutoff(a.checkpoints).Some?
    requires Good(env, s) && CutStays(a, turnID, s) && ReceiveResponse(env, s, response, at).Some?
    ensures CutStays(a, turnID, ReceiveResponse(env, s, response, at).value)
  {
    hide Replays, Tracks, CallsFit, Sound, Matches, BP.Inv, CB.CheckpointsInRange, SameCut, CB.Cutoff, Persist;
    TurnsGrow(env, s, ResponseData(s.local.currentTurnID, response), [], at);
  }

  lemma StepKeepsCut(env: Env, a: CB.State, turnID: string, s: Sys, action: Action)
    requires CB.CheckpointsInRange(env.base) && CB.CheckpointsInRange(a) && CB.Cutoff(a.checkpoints).Some?
    requires Good(env, s) && CutStays(a, turnID, s) && Fair(s, action) && Proper(s, action) && Step(env, s, action).Some?
    ensures CutStays(a, turnID, Step(env, s, action).value)
  {
    hide Replays, Tracks, CallsFit, Sound, LoadHistory, Schedule, ReceiveInput, Reconcile, TakeDecision, ReceiveResponse, Restore, Matches, BP.Inv,
         SameCut, CB.Cutoff, CB.CheckpointsInRange;
    StepGood(env, s, action);
    match action
    case ScheduleCall(key, status, operations, at) => ScheduleKeepsCut(env, a, turnID, s, key, status, operations, at);
    case TakeInput(input, at) => InputKeepsCut(env, a, turnID, s, input, at);
    case ReconcileCall(key, at) => ReconcileKeepsCut(env, a, turnID, s, key, at);
    case Decide(next, at) => DecisionKeepsCut(env, a, turnID, s, next, at);
    case TakeResponse(response, at) => ResponseKeepsCut(env, a, turnID, s, response, at);
    case _ =>
  }

  lemma {:induction false} RunKeepsCut(env: Env, a: CB.State, turnID: string, s: Sys, actions: seq<Action>, t: Sys)
    requires CB.CheckpointsInRange(env.base) && CB.CheckpointsInRange(a) && CB.Cutoff(a.checkpoints).Some?
    requires Good(env, s) && CutStays(a, turnID, s) && CB.CheckpointsInRange(s.local.builder) && Follows(env, s, actions, t)
    ensures Good(env, t) && CutStays(a, turnID, t)
    decreases |actions|
  {
    hide Good, Step, Fair, Proper, CutStays, CB.Cutoff;
    if actions != [] {
      StepGood(env, s, actions[0]);
      StepKeepsCut(env, a, turnID, s, actions[0]);
      RunKeepsCut(env, a, turnID, Step(env, s, actions[0]).value, actions[1..], t);
    }
  }

  /** A decision to compact: the request summarizes what is before the cut of the builder. */
  lemma CompactionBegins(env: Env, s: Sys, turnID: string, at: Time)
    requires CB.CheckpointsInRange(env.base) && Good(env, s) && !s.vol.stop.Hard? && ShouldCall(s) && Compacts(env, s)
    requires TakeDecision(env, s, turnID, at).Some?
    ensures CB.Cutoff(s.local.builder.checkpoints).Some? && CutStays(s.local.builder, turnID, TakeDecision(env, s, turnID, at).value)
  {
    hide Replays, Tracks, CallsFit, Sound, Matches, BP.Inv, BP.Dropped, CB.Cutoff, ShouldCall, Idle, CB.NeedsCompaction, CB.BuildCompaction;
    var data := TurnData(Turn(turnID, s.local.currentTurnID, true));
    CompactionIsCut(s.local.builder, env.prompt);
    TurnsGrow(env, s, data, [], at);
    SoundFields(s.stored);
    HeadFields(s.stored, data, [], at);
  }

  /** In every run, with any crashes, inputs, settings and results between: as long as the
      model is asked for the turn that was decided to compact, its response is taken as a
      summary and drops exactly what the request summarized; or, after a change of model,
      nothing. */
  lemma CompactionDropsWhatItSummarized(
      env: Env, session: Session, before: seq<Action>, s: Sys, turnID: string, at: Time, actions: seq<Action>, t: Sys)
    requires BP.Inv(env.base) && BP.Now(env.base) == map[] && Follows(env, Start(env, session), before, s)
    requires CB.CheckpointsInRange(s.local.builder) && at != 0
    requires !s.vol.stop.Hard? && ShouldCall(s) && Compacts(env, s)
    requires var decided := TakeDecision(env, s, turnID, at);
             decided.Some? && CB.CheckpointsInRange(decided.value.local.builder) && Follows(env, decided.value, actions, t)
    requires t.vol.modelTurn == Some(turnID)
    ensures CB.CheckpointsInRange(t.local.builder) && CB.Cutoff(s.local.builder.checkpoints).Some?
    ensures t.local.currentTurnID == turnID && t.local.compacting
    ensures t.local.builder.checkpoints == []
            || (CB.Cutoff(t.local.builder.checkpoints).Some? && BP.Dropped(t.local.builder) == BP.Dropped(s.local.builder))
    ensures t.local.builder.checkpoints == [] ==> forall r :: CB.Compact(t.local.builder, r).None?
  {
    hide Good, Step, Follows, TakeDecision, CB.Cutoff, BP.Dropped, Compacts, ShouldCall, BP.Inv;
    StartGood(env, session);
    RunGood(env, Start(env, session), before, s);
    CompactionBegins(env, s, turnID, at);
    DecisionGood(env, s, turnID, at);
    RunKeepsCut(env, s.local.builder, turnID, TakeDecision(env, s, turnID, at).value, actions, t);
    GoodBuilder(env, t);
    if t.local.builder.checkpoints == [] {
      forall r ensures CB.Compact(t.local.builder, r).None? { NothingToCut(t.local.builder, r); }
    }
  }

  lemma DecisionGood(env: Env, s: Sys, turnID: string, at: Time)
    requires CB.CheckpointsInRange(env.base) && Good(env, s) && at != 0 && CB.CheckpointsInRange(s.local.builder)
    requires TakeDecision(env, s, turnID, at).Some?
    ensures Good(env, TakeDecision(env, s, turnID, at).value)
  {
    hide Good, TakeDecision;
    StepGood(env, s, Decide(turnID, at));
  }

  lemma GoodBuilder(env: Env, s: Sys)
    requires CB.CheckpointsInRange(env.base) && Good(env, s)
    ensures CB.CheckpointsInRange(s.local.builder)
  {
  }

  lemma NothingToCut(builder: CB.State, r: CB.Response)
    requires CB.CheckpointsInRange(builder) && builder.checkpoints == []
    ensures CB.Compact(builder, r).None?
  {
  }
}
