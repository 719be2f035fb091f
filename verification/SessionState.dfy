/**
  A session's stored state (harness/sessionstore/localfile/state.go, sessionstore.go,
  inbox/inbox.go), on values: what every append, operation update and fork makes of it.

  `Head` is what appends need to know; `Stored` adds the items. SessionStore.dfy holds
  the head as the shared, in-place updated object it is.
 */
module SessionState {
  import opened Llm
  import ContextBuilder

  datatype Error = NotExist | Exist | Invalid
  datatype Result<+T> = Ok(value: T) | Err(error: Error)

  /** A clock reading; 0 is Go's zero time. */
  type Time = nat

  /** JSON text kept as it is; `valid` is the verdict of the JSON library. */
  datatype Json = Json(text: string, valid: bool)

  datatype Status = Ready | Awaiting | Canceling | Completed | Failed | Canceled | OtherStatus(name: string)

  datatype Operation = Operation(
    id: string, kind: string, version: nat, status: Status, maxOutputLength: int,
    state: Option<Json>, idempotency: Option<Json>)

  predicate Terminal(status: Status) { status.Completed? || status.Failed? || status.Canceled? }

  /** validateOperation. */
  predicate ValidOperation(o: Operation) {
    && o.id != "" && o.kind != "" && o.version != 0 && !o.status.OtherStatus?
    && (o.state.Some? ==> o.state.value.valid)
    && (o.idempotency.Some? ==> o.idempotency.value.valid)
  }

  datatype ControlMessage =
    | StopHard(reason: string)
    | StopWhenIdle(reason: string)
    | Heartbeat(reason: string)
    | UpdateSettings(settings: ContextBuilder.Settings)

  datatype InputKind = ExternalInput | ControlInput | CrashInput | OtherInput

  /** A payload by what the JSON library makes of it: nothing, a string, an envelope that
      decodes as a control message, or other JSON. */
  datatype Payload = Absent | Text(text: string) | Control(message: ControlMessage) | Other(json: Json)

  datatype Input = Input(id: string, kind: InputKind, payload: Payload)

  predicate KnownEffort(effort: string) { effort in ["low", "medium", "high", "xhigh", "max"] }

  predicate ValidControl(m: ControlMessage) {
    match m
    case Heartbeat(reason) => reason != ""
    case UpdateSettings(s) =>
      && (s.reasoningEffort != "" ==> KnownEffort(s.reasoningEffort))
      && (s.model != "" ==> TrimSpace(s.model) != "")
      && (s.compactionThreshold.Some? ==> s.compactionThreshold.value >= 0)
      && (s.maxOutputTokens.Some? ==> s.maxOutputTokens.value > 0)
    case _ => true
  }

  /** DecodeControlMessage; None is an error. */
  function DecodeControl(input: Input): Option<ControlMessage> {
    if input.kind.ControlInput? && input.payload.Control? && ValidControl(input.payload.message)
    then Some(input.payload.message) else None
  }

  /** Input.Validate. */
  predicate ValidInput(input: Input) {
    && input.id != "" && !input.kind.OtherInput?
    && (input.kind.ControlInput? ==> DecodeControl(input).Some?)
    && (input.payload.Other? ==> input.payload.json.valid)
  }

  datatype Session = Session(id: string, createdAt: Time)
  datatype Turn = Turn(id: string, previousTurnID: string, compaction: bool)
  datatype CallStatus = CallStatus(error: string, errorTruncated: bool, waitingFor: seq<string>)
  datatype ToolCallStatus = ToolCallStatus(turnID: string, callID: string, status: CallStatus, operations: seq<Operation>)

  datatype Data =
    | ForkData(parentID: string, previousTurnID: string)
    | InputData(input: Input)
    | TurnData(turn: Turn)
    | ResponseData(turnID: string, response: ContextBuilder.Response)
    | StatusData(status: ToolCallStatus)

  datatype Entry = Entry(sequence: nat, recordedAt: Time, data: Data)

  datatype StatusKey = StatusKey(turnID: string, callID: string)

  datatype Head = Head(
    session: Session, operations: seq<Operation>, itemSequence: nat, latestTurnID: string,
    turns: set<string>, ownedTurns: set<string>, respondedTurns: set<string>,
    toolCallStatuses: set<StatusKey>, operationPositions: map<string, nat>)

  datatype Stored = Stored(head: Head, items: seq<Entry>)

  function NewHead(session: Session): Head { Head(session, [], 0, "", {}, {}, {}, {}, map[]) }

  function NewStored(session: Session): Stored { Stored(NewHead(session), []) }

  // ---------------------------------------------------------------- appends

  datatype Appended = Appended(head: Head, item: Entry)

  function AppendItem(h: Head, data: Data, at: Time): Appended {
    Appended(h.(itemSequence := h.itemSequence + 1), Entry(h.itemSequence + 1, at, data))
  }

  function AppendInput(h: Head, input: Input, at: Time): Result<Appended> {
    if !ValidInput(input) then Err(Invalid) else Ok(AppendItem(h, InputData(input), at))
  }

  function AppendTurn(h: Head, turn: Turn, at: Time): Result<Appended> {
    if turn.id == "" || turn.previousTurnID != h.latestTurnID then Err(Invalid)
    else if turn.id in h.turns then Err(Exist)
    else
      var next := h.(turns := h.turns + {turn.id}, ownedTurns := h.ownedTurns + {turn.id}, latestTurnID := turn.id);
      Ok(AppendItem(next, TurnData(turn), at))
  }

  function AppendResponse(h: Head, turnID: string, response: ContextBuilder.Response, at: Time): Result<Appended> {
    if turnID !in h.ownedTurns then Err(NotExist)
    else if turnID in h.respondedTurns then Err(Exist)
    else Ok(AppendItem(h.(respondedTurns := h.respondedTurns + {turnID}), ResponseData(turnID, response), at))
  }

  /** The first of `operations[i..]` that cannot be initialized. */
  function InitializeError(h: Head, operations: seq<Operation>, i: nat): (r: Option<Error>)
    requires i <= |operations|
    ensures r.None? <==>
              forall j :: i <= j < |operations| ==>
                && ValidOperation(operations[j])
                && operations[j].id !in h.operationPositions
                && forall k :: 0 <= k < j ==> operations[k].id != operations[j].id
    decreases |operations| - i
  {
    if i == |operations| then None
    else if !ValidOperation(operations[i]) then Some(Invalid)
    else if exists k :: 0 <= k < i && operations[k].id == operations[i].id then Some(Exist)
    else if operations[i].id in h.operationPositions then Some(Exist)
    else InitializeError(h, operations, i + 1)
  }

  function IDs(operations: seq<Operation>): (r: seq<string>)
    ensures |r| == |operations| && forall i :: 0 <= i < |operations| ==> r[i] == operations[i].id
  {
    seq(|operations|, i requires 0 <= i < |operations| => operations[i].id)
  }

  predicate NoDuplicates(ids: seq<string>) { forall i, j :: 0 <= i < j < |ids| ==> ids[i] != ids[j] }

  /** validateStatusOperationReferences. */
  predicate ValidReferences(status: CallStatus, operations: seq<Operation>) {
    if status.error != "" then status.waitingFor == [] && operations == []
    else
      && operations != [] && |status.waitingFor| == |operations|
      && NoDuplicates(status.waitingFor)
      && forall i :: 0 <= i < |status.waitingFor| ==> status.waitingFor[i] in IDs(operations)
  }

  /** The first `k` operations become part of the head. */
  function Initialize(h: Head, operations: seq<Operation>, k: nat): Head
    requires k <= |operations|
  {
    if k == 0 then h
    else
      var before := Initialize(h, operations, k - 1);
      var value := operations[k - 1];
      before.(operationPositions := before.operationPositions[value.id := |before.operations|],
              operations := before.operations + [value])
  }

  function AppendStatus(h: Head, status: ToolCallStatus, operations: seq<Operation>, at: Time): Result<Appended> {
    var key := StatusKey(status.turnID, status.callID);
    if status.turnID !in h.ownedTurns then Err(NotExist)
    else if status.callID == "" then Err(Invalid)
    else if key in h.toolCallStatuses then Ok(AppendItem(h, StatusData(status), at))
    else
      match InitializeError(h, operations, 0)
      case Some(error) => Err(error)
      case None =>
        if !ValidReferences(status.status, operations) then Err(Invalid)
        else Ok(AppendItem(Initialize(h.(toolCallStatuses := h.toolCallStatuses + {key}), operations, |operations|), StatusData(status), at))
  }

  function SaveOperation(h: Head, value: Operation): Result<Head> {
    if !ValidOperation(value) then Err(Invalid)
    else if value.id !in h.operationPositions || h.operationPositions[value.id] >= |h.operations| then Err(NotExist)
    else
      var i := h.operationPositions[value.id];
      if h.operations[i].kind != value.kind || h.operations[i].version != value.version then Err(Invalid)
      else Ok(h.(operations := h.operations[i := value]))
  }

  /** replayItem: an owned item, with the operations its record carries. */
  function Replay(s: Stored, data: Data, operations: seq<Operation>, at: Time): Result<Stored> {
    match data
    case InputData(input) => Extend(s, AppendInput(s.head, input, at), [])
    case TurnData(turn) => Extend(s, AppendTurn(s.head, turn, at), [])
    case ResponseData(turnID, response) => Extend(s, AppendResponse(s.head, turnID, response, at), [])
    case StatusData(status) => Extend(s, AppendStatus(s.head, status, operations, at), operations)
    case ForkData(_, _) => Err(Invalid)
  }

  function WithOperations(data: Data, operations: seq<Operation>): Data {
    if data.StatusData? then StatusData(data.status.(operations := operations)) else data
  }

  function Extend(s: Stored, r: Result<Appended>, operations: seq<Operation>): Result<Stored> {
    match r
    case Err(error) => Err(error)
    case Ok(a) => Ok(Stored(a.head, s.items + [a.item.(data := WithOperations(a.item.data, operations))]))
  }

  // ------------------------------------------------------------------ forks

  function ResetOwned(h: Head): Head {
    h.(ownedTurns := {}, respondedTurns := {}, toolCallStatuses := {}, operations := [], operationPositions := map[])
  }

  /** inheritItem. */
  function Inherit(s: Stored, item: Entry): Stored {
    var h := s.head.(itemSequence := item.sequence);
    var next :=
      match item.data
      case TurnData(turn) => h.(turns := h.turns + {turn.id}, ownedTurns := h.ownedTurns + {turn.id}, latestTurnID := turn.id)
      case ResponseData(turnID, _) => h.(respondedTurns := h.respondedTurns + {turnID})
      case StatusData(status) => h.(toolCallStatuses := h.toolCallStatuses + {StatusKey(status.turnID, status.callID)})
      case ForkData(_, _) => ResetOwned(h)
      case InputData(_) => h;
    Stored(next, s.items + [Stripped(item)])
  }

  /** Inherited statuses carry no operations. */
  function Stripped(item: Entry): Entry { item.(data := WithOperations(item.data, [])) }

  /** The first `k` items, inherited into `s`. */
  function InheritAll(s: Stored, items: seq<Entry>, k: nat): Stored
    requires k <= |items|
  {
    if k == 0 then s else Inherit(InheritAll(s, items, k - 1), items[k - 1])
  }

  predicate OfTurn(item: Entry, turnID: string) {
    match item.data
    case TurnData(turn) => turn.id == turnID
    case ResponseData(id, _) => id == turnID
    case StatusData(status) => status.turnID == turnID
    case _ => false
  }

  /** forkStoredState's search, from item `i` with what it has found so far. */
  function Boundary(items: seq<Entry>, turnID: string, i: nat, found: Option<nat>): (r: Option<nat>)
    requires i <= |items| && (found.Some? ==> found.value < i)
    ensures r.Some? ==> r.value < |items|
    decreases |items| - i
  {
    if i == |items| || (found.Some? && items[i].data.TurnData?) then found
    else Boundary(items, turnID, i + 1, if OfTurn(items[i], turnID) then Some(i) else found)
  }

  function AppendFork(s: Stored, parentID: string, previousTurnID: string, at: Time): Stored {
    var a := AppendItem(s.head, ForkData(parentID, previousTurnID), at);
    Stored(ResetOwned(a.head), s.items + [a.item])
  }

  /** forkStoredState. */
  function Fork(parent: Stored, id: string, previousTurnID: string, at: Time): Result<Stored> {
    match Boundary(parent.items, previousTurnID, 0, None)
    case None => Err(NotExist)
    case Some(b) =>
      var inherited := InheritAll(NewStored(Session(id, at)), parent.items, b + 1);
      Ok(AppendFork(inherited, parent.head.session.id, previousTurnID, at))
  }

  /** forkStoredState, by the loops it is. */
  method ForkStoredState(parent: Stored, id: string, previousTurnID: string, at: Time) returns (r: Result<Stored>)
    ensures r == Fork(parent, id, previousTurnID, at)
  {
    var boundary: Option<nat> := None;
    var index := 0;
    while index < |parent.items| && !(boundary.Some? && parent.items[index].data.TurnData?)
      invariant index <= |parent.items| && (boundary.Some? ==> boundary.value < index)
      invariant Boundary(parent.items, previousTurnID, 0, None) == Boundary(parent.items, previousTurnID, index, boundary)
    {
      if OfTurn(parent.items[index], previousTurnID) { boundary := Some(index); }
      index := index + 1;
    }
    if boundary.None? { return Err(NotExist); }
    var state := NewStored(Session(id, at));
    for i := 0 to boundary.value + 1
      invariant state == InheritAll(NewStored(Session(id, at)), parent.items, i)
    {
      state := Inherit(state, parent.items[i]);
    }
    r := Ok(AppendFork(state, parent.head.session.id, previousTurnID, at));
  }

  /** The boundary is the last item of the turn before any later turn begins. */
  lemma {:induction false} BoundaryMeaning(items: seq<Entry>, turnID: string, i: nat, found: Option<nat>)
    requires i <= |items|
    requires found.None? ==> forall j :: 0 <= j < i ==> !OfTurn(items[j], turnID)
    requires found.Some? ==> IsBoundary(items, turnID, found.value, i)
    requires found.Some? ==> forall k :: found.value < k < i ==> !items[k].data.TurnData?
    ensures var b := Boundary(items, turnID, i, found);
            && (b.None? <==> forall j :: 0 <= j < |items| ==> !OfTurn(items[j], turnID))
            && (b.Some? ==> IsBoundary(items, turnID, b.value, |items|))
    decreases |items| - i
  {
    if i == |items| {
    } else if found.Some? && items[i].data.TurnData? {
      assert IsBoundary(items, turnID, found.value, |items|);
    } else {
      BoundaryMeaning(items, turnID, i + 1, if OfTurn(items[i], turnID) then Some(i) else found);
    }
  }

  /** Item `b` is of the turn, no turn begins between the first item of the turn and `b`,
      and any later item of the turn (before `end`) comes after another turn began. */
  predicate IsBoundary(items: seq<Entry>, turnID: string, b: nat, end: nat) {
    && b < end <= |items| && OfTurn(items[b], turnID)
    && (forall j, k :: 0 <= j < k <= b && OfTurn(items[j], turnID) ==> !items[k].data.TurnData?)
    && (forall k :: b < k < end && OfTurn(items[k], turnID) ==> exists t :: b < t <= k && items[t].data.TurnData?)
  }

  // ---------------------------------------------------------- what a head says

  predicate IsTurn(items: seq<Entry>, i: nat, id: string) {
    i < |items| && items[i].data.TurnData? && items[i].data.turn.id == id
  }

  /** Item `i` begins a turn, answers one or reports on one that began before it. */
  predicate Attributed(items: seq<Entry>, i: nat)
    requires i < |items|
  {
    match items[i].data
    case ResponseData(turnID, _) => exists j :: 0 <= j < i && IsTurn(items, j, turnID)
    case StatusData(status) => exists j :: 0 <= j < i && IsTurn(items, j, status.turnID)
    case _ => true
  }

  predicate Numbered(items: seq<Entry>) {
    forall i :: 0 <= i < |items| ==> items[i].sequence == i + 1 && items[i].recordedAt != 0
  }

  predicate TurnsOnce(items: seq<Entry>) {
    forall i, j :: 0 <= i < j < |items| && items[i].data.TurnData? && items[j].data.TurnData? ==>
      items[i].data.turn.id != items[j].data.turn.id
  }

  /** The items a store can have recorded. */
  predicate Recorded(items: seq<Entry>) {
    && Numbered(items) && TurnsOnce(items)
    && (forall i :: 0 <= i < |items| ==> Attributed(items, i))
    && (forall i :: 0 <= i < |items| && items[i].data.TurnData? ==> items[i].data.turn.id != "")
  }

  /** The ID of the last turn among the first `k` items. */
  function LastTurn(items: seq<Entry>, k: nat): string
    requires k <= |items|
  {
    if k == 0 then "" else if items[k - 1].data.TurnData? then items[k - 1].data.turn.id else LastTurn(items, k - 1)
  }

  ghost predicate TurnsAre(turns: set<string>, items: seq<Entry>) {
    forall id :: id in turns <==> exists i :: IsTurn(items, i, id)
  }

  predicate Positions(h: Head) {
    && (forall id :: id in h.operationPositions ==>
          h.operationPositions[id] < |h.operations| && h.operations[h.operationPositions[id]].id == id)
    && (forall i :: 0 <= i < |h.operations| ==>
          && ValidOperation(h.operations[i])
          && h.operations[i].id in h.operationPositions && h.operationPositions[h.operations[i].id] == i)
  }

  /** The head tells what the items say. */
  ghost predicate Sound(s: Stored) {
    && Recorded(s.items) && s.head.itemSequence == |s.items|
    && TurnsAre(s.head.turns, s.items) && s.head.latestTurnID == LastTurn(s.items, |s.items|)
    && s.head.ownedTurns <= s.head.turns
    && Positions(s.head)
  }

  lemma NewSound(session: Session)
    ensures Sound(NewStored(session))
  {
  }

  lemma {:induction false} LastTurnOfPrefix(items: seq<Entry>, more: seq<Entry>, k: nat)
    requires k <= |items| <= |more| && forall i :: 0 <= i < k ==> items[i].data.TurnData? == more[i].data.TurnData? && (items[i].data.TurnData? ==> items[i].data == more[i].data)
    ensures LastTurn(items, k) == LastTurn(more, k)
  {
    if k > 0 { LastTurnOfPrefix(items, more, k - 1); }
  }

  /** One more item, numbered next, about a turn that began. */
  lemma RecordedSnoc(items: seq<Entry>, item: Entry)
    requires Recorded(items) && item.sequence == |items| + 1 && item.recordedAt != 0
    requires item.data.TurnData? ==> item.data.turn.id != "" && forall i :: !IsTurn(items, i, item.data.turn.id)
    requires item.data.ResponseData? ==> exists i :: IsTurn(items, i, item.data.turnID)
    requires item.data.StatusData? ==> exists i :: IsTurn(items, i, item.data.status.turnID)
    ensures Recorded(items + [item])
    ensures LastTurn(items + [item], |items| + 1) == if item.data.TurnData? then item.data.turn.id else LastTurn(items, |items|)
  {
    var more := items + [item];
    LastTurnOfPrefix(items, more, |items|);
    forall i | 0 <= i < |more| ensures Attributed(more, i) {
      if i < |items| {
        assert Attributed(items, i);
        if items[i].data.ResponseData? {
          var j :| 0 <= j < i && IsTurn(items, j, items[i].data.turnID);
          assert IsTurn(more, j, items[i].data.turnID);
        } else if items[i].data.StatusData? {
          var j :| 0 <= j < i && IsTurn(items, j, items[i].data.status.turnID);
          assert IsTurn(more, j, items[i].data.status.turnID);
        }
      } else if item.data.ResponseData? {
        var j :| IsTurn(items, j, item.data.turnID);
        assert IsTurn(more, j, item.data.turnID);
      } else if item.data.StatusData? {
        var j :| IsTurn(items, j, item.data.status.turnID);
        assert IsTurn(more, j, item.data.status.turnID);
      }
    }
    forall i | 0 <= i < |items| && items[i].data.TurnData? && item.data.TurnData? ensures items[i].data.turn.id != item.data.turn.id {
      assert !IsTurn(items, i, item.data.turn.id);
    }
  }

  lemma TurnsAreSnoc(turns: set<string>, items: seq<Entry>, item: Entry)
    requires TurnsAre(turns, items)
    ensures TurnsAre(turns + if item.data.TurnData? then {item.data.turn.id} else {}, items + [item])
  {
    var more := items + [item];
    forall i, id | IsTurn(items, i, id) ensures IsTurn(more, i, id) {}
    forall i, id | IsTurn(more, i, id) ensures IsTurn(items, i, id) || (i == |items| && item.data.TurnData? && item.data.turn.id == id) {}
    if item.data.TurnData? { assert IsTurn(more, |items|, item.data.turn.id); }
  }

  predicate Fresh(h: Head, operations: seq<Operation>) {
    && (forall j :: 0 <= j < |operations| ==> ValidOperation(operations[j]) && operations[j].id !in h.operationPositions)
    && (forall i, j :: 0 <= i < j < |operations| ==> operations[i].id != operations[j].id)
  }

  lemma {:induction false} InitializeKeeps(h: Head, operations: seq<Operation>, k: nat)
    requires Positions(h) && Fresh(h, operations) && k <= |operations|
    ensures var r := Initialize(h, operations, k);
            && Positions(r)
            && r == h.(operations := h.operations + operations[..k], operationPositions := r.operationPositions)
            && forall j :: k <= j < |operations| ==> operations[j].id !in r.operationPositions
  {
    if k == 0 {
      assert h.operations + operations[..0] == h.operations;
    } else {
      InitializeKeeps(h, operations, k - 1);
      var before := Initialize(h, operations, k - 1);
      assert h.operations + operations[..k] == (h.operations + operations[..k - 1]) + [operations[k - 1]];
      PositionsSnoc(before, operations[k - 1]);
    }
  }

  lemma PositionsSnoc(h: Head, value: Operation)
    requires Positions(h) && ValidOperation(value) && value.id !in h.operationPositions
    ensures Positions(h.(operationPositions := h.operationPositions[value.id := |h.operations|], operations := h.operations + [value]))
  {
    hide ValidOperation;
  }

  /** Every owned append keeps the head in step with the items. */
  lemma ReplaySound(s: Stored, data: Data, operations: seq<Operation>, at: Time)
    requires Sound(s) && at != 0 && Replay(s, data, operations, at).Ok?
    ensures Sound(Replay(s, data, operations, at).value)
  {
    hide Recorded, LastTurn, Positions, Replay;
    HeadFields(s, data, operations, at);
    var item := Entry(|s.items| + 1, at, WithOperations(data, operations));
    RecordedSnoc(s.items, item);
    TurnsAreSnoc(s.head.turns, s.items, item);
  }

  lemma HeadFields(s: Stored, data: Data, operations: seq<Operation>, at: Time)
    requires Positions(s.head) && s.head.itemSequence == |s.items| && s.head.ownedTurns <= s.head.turns
    requires Replay(s, data, operations, at).Ok?
    ensures var t := Replay(s, data, operations, at).value;
            && t.items == s.items + [Entry(|s.items| + 1, at, WithOperations(data, operations))] && !data.ForkData?
            && t.head.session == s.head.session
            && t.head.itemSequence == |t.items| && Positions(t.head)
            && t.head.turns == s.head.turns + (if data.TurnData? then {data.turn.id} else {})
            && t.head.ownedTurns <= t.head.turns
            && t.head.latestTurnID == (if data.TurnData? then data.turn.id else s.head.latestTurnID)
            && (data.TurnData? ==> data.turn.id != "" && data.turn.id !in s.head.turns)
            && (data.ResponseData? ==> data.turnID in s.head.ownedTurns)
            && (data.StatusData? ==> data.status.turnID in s.head.ownedTurns)
  {
    if data.StatusData? {
      hide Positions, AppendStatus;
      StatusHead(s.head, data.status, operations, at);
    }
  }

  lemma StatusHead(h: Head, status: ToolCallStatus, operations: seq<Operation>, at: Time)
    requires Positions(h) && AppendStatus(h, status, operations, at).Ok?
    ensures var r := AppendStatus(h, status, operations, at).value;
            && r.item == Entry(h.itemSequence + 1, at, StatusData(status))
            && Positions(r.head) && status.turnID in h.ownedTurns
            && r.head == h.(itemSequence := h.itemSequence + 1, toolCallStatuses := r.head.toolCallStatuses,
                            operations := r.head.operations, operationPositions := r.head.operationPositions)
  {
    var key := StatusKey(status.turnID, status.callID);
    if key !in h.toolCallStatuses {
      var g := h.(toolCallStatuses := h.toolCallStatuses + {key});
      InitializeKeeps(g, operations, |operations|);
    }
  }

  /** An operation update touches that operation and nothing else. */
  lemma SaveSound(s: Stored, value: Operation)
    requires Sound(s) && SaveOperation(s.head, value).Ok?
    ensures var h := SaveOperation(s.head, value).value;
            && Sound(s.(head := h))
            && h == s.head.(operations := h.operations) && |h.operations| == |s.head.operations|
            && forall i :: 0 <= i < |h.operations| ==> h.operations[i] == if s.head.operations[i].id == value.id then value else s.head.operations[i]
  {
    hide Recorded, LastTurn, TurnsAre;
  }

  // ------------------------------------------------------ what a fork says

  lemma {:induction false} LastTurnIs(items: seq<Entry>, j: nat, k: nat)
    requires j < k <= |items| && items[j].data.TurnData? && forall i :: j < i < k ==> !items[i].data.TurnData?
    ensures LastTurn(items, k) == items[j].data.turn.id
  {
    if j + 1 < k { LastTurnIs(items, j, k - 1); }
  }

  /** `copy` is the first `k` items without their operations. */
  predicate Copied(copy: seq<Entry>, items: seq<Entry>, k: nat)
    requires k <= |items|
  {
    |copy| == k && forall i :: 0 <= i < k ==> copy[i] == Stripped(items[i])
  }

  lemma RecordedCopy(copy: seq<Entry>, items: seq<Entry>, k: nat)
    requires k <= |items| && Recorded(items) && Copied(copy, items, k)
    ensures Recorded(copy)
  {
    forall i | 0 <= i < k ensures Attributed(copy, i) {
      assert Attributed(items, i);
      if items[i].data.ResponseData? {
        var j :| 0 <= j < i && IsTurn(items, j, items[i].data.turnID);
        assert IsTurn(copy, j, items[i].data.turnID);
      } else if items[i].data.StatusData? {
        var j :| 0 <= j < i && IsTurn(items, j, items[i].data.status.turnID);
        assert IsTurn(copy, j, items[i].data.status.turnID);
      }
    }
  }

  /** What inheriting the first `k` items of a history makes of a new session. */
  lemma {:induction false} InheritMeaning(session: Session, items: seq<Entry>, k: nat)
    requires k <= |items| && Numbered(items)
    ensures var r := InheritAll(NewStored(session), items, k);
            && Copied(r.items, items, k) && TurnsAre(r.head.turns, r.items)
            && r.head.session == session && r.head.itemSequence == k
            && r.head.operations == [] && r.head.operationPositions == map[]
            && r.head.latestTurnID == LastTurn(r.items, k)
            && r.head.ownedTurns <= r.head.turns
  {
    hide Inherit, LastTurn, TurnsAre;
    if k == 0 {
      NothingInherited(session);
    } else {
      InheritMeaning(session, items, k - 1);
      InheritStep(InheritAll(NewStored(session), items, k - 1), items[k - 1]);
    }
  }

  lemma NothingInherited(session: Session)
    ensures var r := NewStored(session); TurnsAre(r.head.turns, r.items) && r.head.latestTurnID == LastTurn(r.items, 0)
  {
  }

  lemma InheritStep(before: Stored, item: Entry)
    requires TurnsAre(before.head.turns, before.items) && before.head.latestTurnID == LastTurn(before.items, |before.items|)
    requires before.head.operations == [] && before.head.operationPositions == map[] && before.head.ownedTurns <= before.head.turns
    ensures var r := Inherit(before, item);
            && r.items == before.items + [Stripped(item)] && TurnsAre(r.head.turns, r.items)
            && r.head.session == before.head.session && r.head.itemSequence == item.sequence
            && r.head.operations == [] && r.head.operationPositions == map[]
            && r.head.latestTurnID == LastTurn(r.items, |r.items|)
            && r.head.ownedTurns <= r.head.turns
  {
    hide TurnsAre;
    var more := before.items + [Stripped(item)];
    TurnsAreSnoc(before.head.turns, before.items, Stripped(item));
    LastTurnOfPrefix(before.items, more, |before.items|);
    assert before.head.turns + {} == before.head.turns;
  }

  /** A fork starts from a copy of the parent's items up to the boundary of the chosen
      turn, which becomes its latest; it owns no turn and no operation. */
  ghost predicate IsForkOf(s: Stored, parent: Stored, b: nat, id: string, turnID: string, at: Time)
    requires b < |parent.items|
  {
    && |s.items| == b + 2 && Copied(s.items[..b + 1], parent.items, b + 1)
    && s.items[b + 1] == Entry(b + 2, at, ForkData(parent.head.session.id, turnID))
    && s.head.session == Session(id, at) && s.head.latestTurnID == turnID && turnID in s.head.turns
    && s.head.ownedTurns == {} && s.head.respondedTurns == {} && s.head.toolCallStatuses == {}
    && s.head.operations == [] && s.head.operationPositions == map[]
  }

  lemma TurnOfItems(s: Stored, turnID: string)
    requires Sound(s)
    ensures turnID in s.head.turns <==> exists j :: 0 <= j < |s.items| && OfTurn(s.items[j], turnID)
  {
    if turnID in s.head.turns {
      var i: nat :| IsTurn(s.items, i, turnID);
      assert OfTurn(s.items[i], turnID);
    }
    forall j | 0 <= j < |s.items| && OfTurn(s.items[j], turnID) ensures turnID in s.head.turns {
      var i := TurnBegins(s.items, turnID, j);
    }
  }

  /** Where the turn of an item began. */
  lemma TurnBegins(items: seq<Entry>, turnID: string, j: nat) returns (i: nat)
    requires j < |items| && Attributed(items, j) && OfTurn(items[j], turnID)
    ensures i <= j && IsTurn(items, i, turnID)
  {
    if items[j].data.TurnData? { i := j; } else { i :| 0 <= i < j && IsTurn(items, i, turnID); }
  }

  lemma BoundaryTurnIsLast(items: seq<Entry>, turnID: string, b: nat)
    requires Recorded(items) && IsBoundary(items, turnID, b, |items|)
    ensures LastTurn(items, b + 1) == turnID
  {
    assert Attributed(items, b);
    var i := TurnBegins(items, turnID, b);
    assert OfTurn(items[i], turnID);
    LastTurnIs(items, i, b + 1);
  }

  lemma RecordedNumbered(items: seq<Entry>)
    requires Recorded(items)
    ensures Numbered(items)
  {
  }

  lemma TurnOfFork(s: Stored, parent: Stored, turnID: string, b: nat)
    requires b < |parent.items| && Recorded(parent.items) && IsBoundary(parent.items, turnID, b, |parent.items|)
    requires TurnsAre(s.head.turns, s.items) && Copied(s.items, parent.items, b + 1)
    ensures turnID in s.head.turns
  {
    assert Attributed(parent.items, b);
    var i := TurnBegins(parent.items, turnID, b);
    assert IsTurn(s.items, i, turnID);
  }

  lemma CopyFacts(copy: seq<Entry>, items: seq<Entry>, k: nat, item: Entry)
    requires k <= |items| && Copied(copy, items, k)
    ensures |copy| == k && LastTurn(copy, k) == LastTurn(items, k)
    ensures |copy + [item]| == k + 1 && (copy + [item])[..k] == copy
  {
    LastTurnOfPrefix(copy, items, k);
  }

  lemma ForkMeaning(parent: Stored, id: string, turnID: string, at: Time) returns (b: nat)
    requires Sound(parent) && at != 0
    ensures Fork(parent, id, turnID, at).Ok? <==> turnID in parent.head.turns
    ensures Fork(parent, id, turnID, at).Ok? ==>
              && Boundary(parent.items, turnID, 0, None) == Some(b) && IsBoundary(parent.items, turnID, b, |parent.items|)
              && IsForkOf(Fork(parent, id, turnID, at).value, parent, b, id, turnID, at)
              && Sound(Fork(parent, id, turnID, at).value)
  {
    hide Recorded, IsBoundary, TurnsAre, Copied, LastTurn, Inherit, InheritAll;
    b := 0;
    BoundaryMeaning(parent.items, turnID, 0, None);
    TurnOfItems(parent, turnID);
    var r := Boundary(parent.items, turnID, 0, None);
    if r.Some? {
      b := r.value;
      assert Numbered(parent.items) by { RecordedNumbered(parent.items); }
      InheritMeaning(Session(id, at), parent.items, b + 1);
      var inherited := InheritAll(NewStored(Session(id, at)), parent.items, b + 1);
      var item := Entry(b + 2, at, ForkData(parent.head.session.id, turnID));
      RecordedCopy(inherited.items, parent.items, b + 1);
      BoundaryTurnIsLast(parent.items, turnID, b);
      CopyFacts(inherited.items, parent.items, b + 1, item);
      RecordedSnoc(inherited.items, item);
      TurnsAreSnoc(inherited.head.turns, inherited.items, item);
      assert inherited.head.turns + {} == inherited.head.turns;
      TurnOfFork(inherited, parent, turnID, b);
    }
  }

  /** An item of the turn stands at or after the beginning of a turn that follows its first item. */
  predicate Straggles(items: seq<Entry>, turnID: string) {
    exists i, k, j :: 0 <= i < k <= j < |items| && OfTurn(items[i], turnID) && items[k].data.TurnData? && OfTurn(items[j], turnID)
  }

  /** The boundary takes the turn whole if and only if nothing of it straggles. */
  lemma WholeTurn(items: seq<Entry>, turnID: string, b: nat)
    requires b < |items| && IsBoundary(items, turnID, b, |items|)
    ensures (forall j :: 0 <= j < |items| && OfTurn(items[j], turnID) ==> j <= b) <==> !Straggles(items, turnID)
  {
    if j :| b < j < |items| && OfTurn(items[j], turnID) {
      var t :| b < t <= j && items[t].data.TurnData?;
      assert Straggles(items, turnID);
    }
  }

  /** The exact condition: a fork holds every item of the chosen turn if and only if none of
      them was recorded once another turn had begun after its first. */
  lemma ForkHoldsTheTurn(parent: Stored, id: string, turnID: string, at: Time)
    requires Sound(parent) && at != 0 && turnID in parent.head.turns
    ensures Fork(parent, id, turnID, at).Ok?
    ensures var f := Fork(parent, id, turnID, at).value;
            (forall j :: 0 <= j < |parent.items| && OfTurn(parent.items[j], turnID) ==> Stripped(parent.items[j]) in f.items)
            <==> !Straggles(parent.items, turnID)
  {
    hide Fork, Boundary, IsBoundary, Straggles, Recorded, TurnsAre;
    var b := ForkMeaning(parent, id, turnID, at);
    var f := Fork(parent, id, turnID, at).value;
    assert Numbered(parent.items) by { RecordedNumbered(parent.items); }
    WholeTurn(parent.items, turnID, b);
    forall j | 0 <= j < |parent.items| && OfTurn(parent.items[j], turnID) ensures Stripped(parent.items[j]) in f.items <==> j <= b {
      if j <= b {
        assert f.items[..b + 1][j] == f.items[j];
      } else {
        forall i | 0 <= i < |f.items| ensures f.items[i] != Stripped(parent.items[j]) {
          if i <= b { assert f.items[i] == f.items[..b + 1][i]; }
        }
      }
    }
  }

  /** It does happen: a call of a turn reports after the next turn began, and a fork from the
      first turn does not hold the report. */
  lemma ForkLosesALateReport() returns (parent: Stored, report: Entry)
    ensures Sound(parent) && report in parent.items && OfTurn(report, "first")
    ensures Fork(parent, "fork", "first", 1).Ok? && Stripped(report) !in Fork(parent, "fork", "first", 1).value.items
  {
    hide Sound, Fork;
    var began := NewStored(Session("parent", 1));
    NewSound(began.head.session);
    var turn := TurnData(Turn("first", "", false));
    ReplaySound(began, turn, [], 1);
    var first := Replay(began, turn, [], 1).value;
    var next := TurnData(Turn("second", "first", false));
    ReplaySound(first, next, [], 1);
    var second := Replay(first, next, [], 1).value;
    var status := StatusData(ToolCallStatus("first", "call", CallStatus("failed", false, []), []));
    ReplaySound(second, status, [], 1);
    parent := Replay(second, status, [], 1).value;
    report := parent.items[2];
    assert parent.items == [first.items[0], second.items[1], report];
    ForksAfterOne(parent);
  }

  lemma ForksAfterOne(parent: Stored)
    requires |parent.items| == 3 && OfTurn(parent.items[0], "first") && parent.items[1].data.TurnData? && parent.items[2].sequence == 3
    requires parent.items[0].sequence == 1 && parent.items[0].data.TurnData? && OfTurn(parent.items[2], "first")
    ensures Fork(parent, "fork", "first", 1).Ok? && Stripped(parent.items[2]) !in Fork(parent, "fork", "first", 1).value.items
  {
    assert Boundary(parent.items, "first", 0, None) == Boundary(parent.items, "first", 1, Some(0)) == Some(0);
    var session := Session("fork", 1);
    assert InheritAll(NewStored(session), parent.items, 0) == NewStored(session);
    assert InheritAll(NewStored(session), parent.items, 1) == Inherit(NewStored(session), parent.items[0]);
  }

  // ----------------------------------------------------------------- resume

  datatype ResumeState = ResumeState(session: Session, operations: seq<Operation>, inputIDs: seq<string>)

  /** The last of the first `n` operations with this ID. */
  function SnapshotIn(operations: seq<Operation>, n: nat, id: string): Option<Operation>
    requires n <= |operations|
  {
    if n == 0 then None else if operations[n - 1].id == id then Some(operations[n - 1]) else SnapshotIn(operations, n - 1, id)
  }

  /** The last snapshot of an operation in the first `k` items. */
  function LastSnapshot(items: seq<Entry>, k: nat, id: string): Option<Operation>
    requires k <= |items|
  {
    if k == 0 then None
    else if items[k - 1].data.StatusData? && SnapshotIn(items[k - 1].data.status.operations, |items[k - 1].data.status.operations|, id).Some?
    then SnapshotIn(items[k - 1].data.status.operations, |items[k - 1].data.status.operations|, id)
    else LastSnapshot(items, k - 1, id)
  }

  /** An operation the items show unfinished. */
  predicate Unrecorded(items: seq<Entry>, k: nat, id: string)
    requires k <= |items|
  {
    var last := LastSnapshot(items, k, id);
    last.Some? && !Terminal(last.value.status)
  }

  predicate Resumed(s: Stored, o: Operation) { !Terminal(o.status) || Unrecorded(s.items, |s.items|, o.id) }

  function ResumedOperations(s: Stored, n: nat): seq<Operation>
    requires n <= |s.head.operations|
  {
    if n == 0 then []
    else ResumedOperations(s, n - 1) + if Resumed(s, s.head.operations[n - 1]) then [s.head.operations[n - 1]] else []
  }

  function InputIDs(items: seq<Entry>, k: nat): seq<string>
    requires k <= |items|
  {
    if k == 0 then []
    else InputIDs(items, k - 1) + if items[k - 1].data.InputData? then [items[k - 1].data.input.id] else []
  }

  /** resume: the unfinished operations, and the finished ones the items do not show as such. */
  function Resume(s: Stored): ResumeState {
    ResumeState(s.head.session, ResumedOperations(s, |s.head.operations|), InputIDs(s.items, |s.items|))
  }

  /** `pending` after the first `n` operations of item `k` and all items before it. */
  ghost predicate PendingIs(pending: set<string>, items: seq<Entry>, k: nat, operations: seq<Operation>, n: nat)
    requires k <= |items| && n <= |operations|
  {
    forall id :: id in pending <==>
      match SnapshotIn(operations, n, id)
      case Some(o) => !Terminal(o.status)
      case None => Unrecorded(items, k, id)
  }

  /** resume, by the loops it is. */
  method ResumeOf(s: Stored) returns (r: ResumeState)
    ensures r == Resume(s)
  {
    var inputIDs := [];
    var pending: set<string> := {};
    for i := 0 to |s.items|
      invariant inputIDs == InputIDs(s.items, i)
      invariant PendingIs(pending, s.items, i, [], 0)
    {
      match s.items[i].data {
        case InputData(input) => inputIDs := inputIDs + [input.id];
        case StatusData(status) =>
          for j := 0 to |status.operations|
            invariant PendingIs(pending, s.items, i, status.operations, j)
          {
            var value := status.operations[j];
            if Terminal(value.status) { pending := pending - {value.id}; } else { pending := pending + {value.id}; }
          }
        case _ =>
      }
    }
    var operations := [];
    for i := 0 to |s.head.operations|
      invariant operations == ResumedOperations(s, i)
    {
      var value := s.head.operations[i];
      if !Terminal(value.status) || value.id in pending { operations := operations + [value]; }
    }
    r := ResumeState(s.head.session, operations, inputIDs);
  }

  lemma {:induction false} NoDuplicatesOnce(ids: seq<string>)
    requires NoDuplicates(ids)
    ensures forall id :: multiset(ids)[id] <= 1
  {
    if ids != [] {
      var n := |ids| - 1;
      assert ids == ids[..n] + [ids[n]];
      assert forall i :: 0 <= i < n ==> ids[..n][i] == ids[i];
      NoDuplicatesOnce(ids[..n]);
      assert ids[n] !in ids[..n];
    }
  }

  lemma OnceNoDuplicates(ids: seq<string>)
    requires forall id :: multiset(ids)[id] <= 1
    ensures NoDuplicates(ids)
  {
    forall i, j | 0 <= i < j < |ids| ensures ids[i] != ids[j] {
      assert ids == (ids[..i] + [ids[i]] + ids[i + 1..j]) + [ids[j]] + ids[j + 1..];
      assert multiset(ids)[ids[i]] >= if ids[i] == ids[j] then 2 else 1;
    }
  }

  lemma SameSize(a: seq<string>, b: seq<string>)
    requires |a| == |b| && (forall id :: multiset(a)[id] <= 1)
    requires forall i :: 0 <= i < |a| ==> a[i] in b
    ensures multiset(a) == multiset(b)
  {
    forall id | id in multiset(a) ensures id in multiset(b) {
      assert id in a;
    }
    assert multiset(a) <= multiset(b);
    var rest := multiset(b) - multiset(a);
    assert multiset(b) == multiset(a) + rest;
    assert |rest| == 0;
  }

  /** A status without an error waits for exactly the operations it initializes, each once. */
  lemma ReferencesMeaning(status: CallStatus, operations: seq<Operation>)
    requires NoDuplicates(IDs(operations))
    ensures ValidReferences(status, operations) <==>
              if status.error != "" then status.waitingFor == [] && operations == []
              else operations != [] && multiset(status.waitingFor) == multiset(IDs(operations))
  {
    var ids := IDs(operations);
    NoDuplicatesOnce(ids);
    if ValidReferences(status, operations) && status.error == "" {
      NoDuplicatesOnce(status.waitingFor);
      SameSize(status.waitingFor, ids);
      assert multiset(status.waitingFor) == multiset(ids);
    }
    if status.error == "" && multiset(status.waitingFor) == multiset(ids) {
      assert |multiset(status.waitingFor)| == |status.waitingFor|;
      assert |multiset(ids)| == |ids|;
      OnceNoDuplicates(status.waitingFor);
      forall i | 0 <= i < |status.waitingFor| ensures status.waitingFor[i] in ids {
        assert status.waitingFor[i] in multiset(ids);
      }
    }
  }
}
