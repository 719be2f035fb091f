/**
  The local file store (harness/sessionstore/localfile/store.go, and the head methods of
  state.go): append, publish and fork on files, with a cache of heads.

  A head is a value whose maps and operations are shared: a copy taken out of the cache
  changes the cached one in place before anything is written. `Tables` is the shared
  part. `Coherent` says that, between calls, the cache is nothing but the decoded files.
 */
module SessionStore {
  import opened Llm
  import ContextBuilder
  import opened SessionState
  import opened SessionLog
  import opened Utf8

  /** The maps of a head and the backing array of its operations. */
  class Tables {
    var turns: set<string>
    var ownedTurns: set<string>
    var respondedTurns: set<string>
    var toolCallStatuses: set<StatusKey>
    var operationPositions: map<string, nat>
    var backing: seq<Operation>

    constructor (h: Head)
      ensures turns == h.turns && ownedTurns == h.ownedTurns && respondedTurns == h.respondedTurns
      ensures toolCallStatuses == h.toolCallStatuses && operationPositions == h.operationPositions
      ensures backing == h.operations
    {
      turns, ownedTurns, respondedTurns := h.turns, h.ownedTurns, h.respondedTurns;
      toolCallStatuses, operationPositions, backing := h.toolCallStatuses, h.operationPositions, h.operations;
    }
  }

  /** A sessionHead value: what copies have of their own, and what they share. */
  datatype HeadRef = HeadRef(session: Session, operationCount: nat, itemSequence: nat, latestTurnID: string, tables: Tables)

  datatype Taken = Taken(head: HeadRef, item: Entry)

  predicate InBounds(h: HeadRef)
    reads h.tables
  {
    h.operationCount <= |h.tables.backing|
  }

  function View(h: HeadRef): Head
    requires InBounds(h)
    reads h.tables
  {
    Head(h.session, h.tables.backing[..h.operationCount], h.itemSequence, h.latestTurnID, h.tables.turns,
         h.tables.ownedTurns, h.tables.respondedTurns, h.tables.toolCallStatuses, h.tables.operationPositions)
  }

  /** A head of one's own. */
  method Allocate(h: Head) returns (r: HeadRef)
    ensures fresh(r.tables) && InBounds(r) && View(r) == h
  {
    var tables := new Tables(h);
    r := HeadRef(h.session, |h.operations|, h.itemSequence, h.latestTurnID, tables);
    assert tables.backing[..|h.operations|] == h.operations;
  }

  /** What a head method returned, against the function it computes. */
  ghost predicate Gives(r: Result<Taken>, spec: Result<Appended>, tables: Tables)
    reads if r.Ok? then {r.value.head.tables} else {}
  {
    match spec
    case Err(error) => r == Err(error)
    case Ok(a) => r.Ok? && r.value.head.tables == tables && InBounds(r.value.head) && View(r.value.head) == a.head && r.value.item == a.item
  }

  method TakeItem(h: HeadRef, data: Data, at: Time) returns (r: Taken)
    requires InBounds(h)
    ensures r.head == h.(itemSequence := h.itemSequence + 1)
    ensures r.item == Entry(h.itemSequence + 1, at, data)
  {
    r := Taken(h.(itemSequence := h.itemSequence + 1), Entry(h.itemSequence + 1, at, data));
  }

  method HeadAppendInput(h: HeadRef, input: Input, at: Time) returns (r: Result<Taken>)
    requires InBounds(h)
    ensures Gives(r, AppendInput(View(h), input, at), h.tables)
  {
    if !ValidInput(input) { return Err(Invalid); }
    var taken := TakeItem(h, InputData(input), at);
    r := Ok(taken);
  }

  method HeadAppendTurn(h: HeadRef, turn: Turn, at: Time) returns (r: Result<Taken>)
    requires InBounds(h)
    modifies h.tables
    ensures Gives(r, AppendTurn(old(View(h)), turn, at), h.tables)
    ensures r.Err? ==> unchanged(h.tables)
  {
    if turn.id == "" || turn.previousTurnID != h.latestTurnID { return Err(Invalid); }
    if turn.id in h.tables.turns { return Err(Exist); }
    h.tables.turns := h.tables.turns + {turn.id};
    h.tables.ownedTurns := h.tables.ownedTurns + {turn.id};
    var taken := TakeItem(h.(latestTurnID := turn.id), TurnData(turn), at);
    r := Ok(taken);
  }

  method HeadAppendResponse(h: HeadRef, turnID: string, response: ContextBuilder.Response, at: Time) returns (r: Result<Taken>)
    requires InBounds(h)
    modifies h.tables
    ensures Gives(r, AppendResponse(old(View(h)), turnID, response, at), h.tables)
    ensures r.Err? ==> unchanged(h.tables)
  {
    if turnID !in h.tables.ownedTurns { return Err(NotExist); }
    if turnID in h.tables.respondedTurns { return Err(Exist); }
    h.tables.respondedTurns := h.tables.respondedTurns + {turnID};
    var taken := TakeItem(h, ResponseData(turnID, response), at);
    r := Ok(taken);
  }

  /** validateStatusOperationReferences. */
  method CheckReferences(status: CallStatus, operations: seq<Operation>) returns (ok: bool)
    ensures ok <==> ValidReferences(status, operations)
  {
    if status.error != "" { return |status.waitingFor| == 0 && |operations| == 0; }
    if |operations| == 0 { return false; }
    if |status.waitingFor| != |operations| { return false; }
    var initialized: set<string> := {};
    for i := 0 to |operations|
      invariant initialized == set j | 0 <= j < i :: operations[j].id
    {
      initialized := initialized + {operations[i].id};
    }
    assert forall id :: id in initialized <==> id in IDs(operations) by {
      forall id | id in IDs(operations) ensures id in initialized {
        var j :| 0 <= j < |operations| && IDs(operations)[j] == id;
      }
      forall id | id in initialized ensures id in IDs(operations) {
        var j :| 0 <= j < |operations| && operations[j].id == id;
        assert IDs(operations)[j] == id;
      }
    }
    var waiting: set<string> := {};
    for i := 0 to |status.waitingFor|
      invariant waiting == set j | 0 <= j < i :: status.waitingFor[j]
      invariant forall j :: 0 <= j < i ==> status.waitingFor[j] in IDs(operations)
      invariant forall j, k :: 0 <= j < k < i ==> status.waitingFor[j] != status.waitingFor[k]
    {
      var id := status.waitingFor[i];
      if id in waiting {
        var j :| 0 <= j < i && status.waitingFor[j] == id;
        return false;
      }
      waiting := waiting + {id};
      if id !in initialized { return false; }
    }
    ok := true;
  }

  /** The loop that looks for an operation that cannot be initialized. */
  method CheckOperations(h: HeadRef, operations: seq<Operation>) returns (r: Option<Error>)
    requires InBounds(h)
    ensures r == InitializeError(View(h), operations, 0)
  {
    var seen: set<string> := {};
    for index := 0 to |operations|
      invariant seen == set j | 0 <= j < index :: operations[j].id
      invariant InitializeError(View(h), operations, 0) == InitializeError(View(h), operations, index)
    {
      var value := operations[index];
      if !ValidOperation(value) { return Some(Invalid); }
      if value.id in seen { return Some(Exist); }
      if value.id in h.tables.operationPositions { return Some(Exist); }
      seen := seen + {value.id};
    }
    r := None;
  }

  method HeadAppendStatus(h: HeadRef, status: ToolCallStatus, operations: seq<Operation>, at: Time) returns (r: Result<Taken>)
    requires InBounds(h)
    modifies h.tables
    ensures Gives(r, AppendStatus(old(View(h)), status, operations, at), h.tables)
    ensures r.Err? ==> unchanged(h.tables)
  {
    if status.turnID !in h.tables.ownedTurns { return Err(NotExist); }
    if status.callID == "" { return Err(Invalid); }
    var key := StatusKey(status.turnID, status.callID);
    if key in h.tables.toolCallStatuses {
      var known := TakeItem(h, StatusData(status), at);
      return Ok(known);
    }
    var error := CheckOperations(h, operations);
    if error.Some? { return Err(error.value); }
    var ok := CheckReferences(status.status, operations);
    if !ok { return Err(Invalid); }
    h.tables.toolCallStatuses := h.tables.toolCallStatuses + {key};
    var next := InitializeOperations(h, operations);
    var taken := TakeItem(next, StatusData(status), at);
    r := Ok(taken);
  }

  method InitializeOperations(h: HeadRef, operations: seq<Operation>) returns (next: HeadRef)
    requires InBounds(h)
    modifies h.tables
    ensures next.tables == h.tables && InBounds(next) && View(next) == Initialize(old(View(h)), operations, |operations|)
  {
    next := h;
    for i := 0 to |operations|
      invariant next.tables == h.tables && InBounds(next) && View(next) == Initialize(old(View(h)), operations, i)
    {
      var value := operations[i];
      h.tables.operationPositions := h.tables.operationPositions[value.id := next.operationCount];
      h.tables.backing := h.tables.backing[..next.operationCount] + [value];
      next := next.(operationCount := next.operationCount + 1);
    }
  }

  /** saveOperation overwrites the operation where it stands. */
  method HeadSaveOperation(h: HeadRef, value: Operation) returns (r: Option<Error>)
    requires InBounds(h)
    modifies h.tables
    ensures InBounds(h)
    ensures match SessionState.SaveOperation(old(View(h)), value)
            case Err(error) => r == Some(error) && unchanged(h.tables)
            case Ok(head) => r == None && View(h) == head
  {
    if !ValidOperation(value) { return Some(Invalid); }
    if value.id !in h.tables.operationPositions || h.tables.operationPositions[value.id] >= h.operationCount { return Some(NotExist); }
    var index := h.tables.operationPositions[value.id];
    var existing := h.tables.backing[index];
    if existing.kind != value.kind || existing.version != value.version { return Some(Invalid); }
    h.tables.backing := h.tables.backing[index := value];
    r := None;
  }

  // --------------------------------------------------------------- the store

  datatype CachedWriteState = CachedWriteState(head: HeadRef, committedSize: nat)

  /** How appending to a file ends. `Torn(n)` stops after at most `n` bytes; with all of
      them written, it is the sync or the close that failed. */
  datatype AppendOutcome = Appends | Refuses | Torn(written: nat)

  /** How replacing a file by a temporary one ends. */
  datatype PublishOutcome = Publishes | FailsBefore | FailsAfter

  datatype Page = Page(items: seq<Entry>, nextAfter: nat, more: bool)

  /** What the file of a session says, as readState reads it. */
  function ReadFile(c: Codec, files: map<string, Bytes>, id: string): Result<Decoded> {
    if id !in files then Err(NotExist)
    else
      match Decode(c, files[id])
      case None => Err(Invalid)
      case Some(d) => if d.state.head.session.id != id then Err(Invalid) else Ok(d)
  }

  function Min(a: nat, b: nat): nat { if a < b then a else b }

  /** The file after appendFile: cut to the committed size, then what got written. */
  function AfterAppend(file: Bytes, committedSize: nat, data: Bytes, outcome: AppendOutcome): Bytes
    requires committedSize <= |file|
  {
    match outcome
    case Refuses => file
    case Appends => file[..committedSize] + data
    case Torn(n) => file[..committedSize] + data[..Min(n, |data|)]
  }

  /** An append leaves the file saying what it said, or that and the new record. */
  lemma AppendIsAtomic(c: Codec, file: Bytes, record: Record, outcome: AppendOutcome)
    requires Faithful(c) && Decode(c, file).Some? && EncodeRecord(c, record).Some?
    requires !(record.ItemRecord? && record.item.data.ForkData?)
    requires Apply(Decode(c, file).value.state, record).Some?
    ensures var d, line := Decode(c, file).value, EncodeRecord(c, record).value;
            && d.committedSize <= |file|
            && var after := Decode(c, AfterAppend(file, d.committedSize, line, outcome));
            var done := Some(Decoded(Apply(d.state, record).value, d.committedSize + |line|));
            && (after == Some(d) || after == done) && (outcome.Appends? ==> after == done)
  {
    hide DecodeRecords, Lines, Apply, Parse;
    var d, line := Decode(c, file).value, EncodeRecord(c, record).value;
    var b := file[..d.committedSize];
    TailIsIgnored(c, file);
    assert line[..|line|] == line;
    TornAppend(c, b, record, |line|);
    if outcome.Torn? { TornAppend(c, b, record, Min(outcome.written, |line|)); }
  }

  /** What a record did to the files: on success the session's file says it, on failure
      the file says it entirely or not at all; other files are as they were. */
  ghost predicate Persisted(c: Codec, before: map<string, Bytes>, after: map<string, Bytes>, id: string, record: Record, ok: bool)
    requires ReadFile(c, before, id).Ok?
  {
    && after.Keys == before.Keys
    && (forall other :: other in before && other != id ==> after[other] == before[other])
    && var was, now := ReadFile(c, before, id), ReadFile(c, after, id);
    var applied := Apply(was.value.state, record);
    && now.Ok?
    && (now == was || (applied.Some? && now.value.state == applied.value && now.value.committedSize > was.value.committedSize))
    && (ok ==> applied.Some? && now.value.state == applied.value)
  }

  lemma AppendPersists(c: Codec, before: map<string, Bytes>, id: string, record: Record, outcome: AppendOutcome)
    requires Faithful(c) && ReadFile(c, before, id).Ok? && EncodeRecord(c, record).Some?
    requires !(record.ItemRecord? && record.item.data.ForkData?)
    requires Apply(ReadFile(c, before, id).value.state, record).Some?
    ensures var d, line := ReadFile(c, before, id).value, EncodeRecord(c, record).value;
            && id in before && d.committedSize <= |before[id]|
            && var after := before[id := AfterAppend(before[id], d.committedSize, line, outcome)];
            && Persisted(c, before, after, id, record, outcome.Appends?)
            && (outcome.Appends? ==> ReadFile(c, after, id) == Ok(Decoded(Apply(d.state, record).value, d.committedSize + |line|)))
            && SameOthers(c, before, after, id)
  {
    hide Decode, Apply, AfterAppend, EncodeRecord;
    AppendIsAtomic(c, before[id], record, outcome);
    ApplyKeepsSession(ReadFile(c, before, id).value.state, record);
  }

  lemma NothingPersisted(c: Codec, before: map<string, Bytes>, id: string, record: Record)
    requires ReadFile(c, before, id).Ok?
    ensures Persisted(c, before, before, id, record, false) && SameOthers(c, before, before, id)
  {
  }

  type Cache = map<string, CachedWriteState>

  function SharedBy(cache: Cache): set<Tables> { set id | id in cache :: cache[id].head.tables }

  /** A cached entry is what the session's file decodes to. */
  ghost predicate Backed(c: Codec, files: map<string, Bytes>, id: string, cached: CachedWriteState)
    reads cached.head.tables
  {
    && ReadFile(c, files, id).Ok? && InBounds(cached.head)
    && View(cached.head) == ReadFile(c, files, id).value.state.head
    && cached.committedSize == ReadFile(c, files, id).value.committedSize
  }

  /** No two entries share anything. */
  ghost predicate Separate(cache: Cache) {
    forall a, b :: a in cache && b in cache && a != b ==> cache[a].head.tables != cache[b].head.tables
  }

  /** Every entry is backed. */
  ghost predicate AllBacked(c: Codec, files: map<string, Bytes>, cache: Cache)
    reads SharedBy(cache)
  {
    Separate(cache) && forall id :: id in cache ==> Backed(c, files, id, cache[id])
  }

  /** Every entry is, but perhaps that of `id`, which is being changed in place. */
  ghost predicate BackedBut(c: Codec, files: map<string, Bytes>, cache: Cache, id: string)
    reads SharedBy(cache)
  {
    Separate(cache) && forall other :: other in cache && other != id ==> Backed(c, files, other, cache[other])
  }

  /** `files` says the same of all sessions but `id`. */
  ghost predicate SameOthers(c: Codec, before: map<string, Bytes>, files: map<string, Bytes>, id: string) {
    forall other :: other != id ==> ReadFile(c, files, other) == ReadFile(c, before, other)
  }

  lemma EvictRestores(c: Codec, before: map<string, Bytes>, files: map<string, Bytes>, cache: Cache, id: string)
    requires BackedBut(c, before, cache, id) && SameOthers(c, before, files, id)
    ensures AllBacked(c, files, cache - {id}) && SharedBy(cache - {id}) <= SharedBy(cache)
  {
    hide ReadFile, View, InBounds;
  }

  lemma PutRestores(c: Codec, before: map<string, Bytes>, files: map<string, Bytes>, cache: Cache, id: string, entry: CachedWriteState)
    requires BackedBut(c, before, cache, id) && SameOthers(c, before, files, id)
    requires Backed(c, files, id, entry)
    requires forall other :: other in cache && other != id ==> cache[other].head.tables != entry.head.tables
    ensures AllBacked(c, files, cache[id := entry])
    ensures SharedBy(cache[id := entry]) <= SharedBy(cache) + {entry.head.tables}
  {
    hide ReadFile, View, InBounds;
  }

  /** The head method for an item's data. */
  function AppendData(h: Head, data: Data, operations: seq<Operation>, at: Time): Result<Appended> {
    match data
    case InputData(input) => AppendInput(h, input, at)
    case TurnData(turn) => AppendTurn(h, turn, at)
    case ResponseData(turnID, response) => AppendResponse(h, turnID, response, at)
    case StatusData(status) => AppendStatus(h, status, operations, at)
    case ForkData(_, _) => Err(Invalid)
  }

  /** Data as appends give it: a status' operations stand beside it. */
  predicate Split(data: Data, operations: seq<Operation>) {
    !data.ForkData? && if data.StatusData? then data.status.operations == [] else operations == []
  }

  /** The record an append of `data` writes. */
  ghost function NextRecord(c: Codec, files: map<string, Bytes>, id: string, data: Data, operations: seq<Operation>, now: Time): Record
    requires ReadFile(c, files, id).Ok?
  {
    ItemRecord(Entry(|ReadFile(c, files, id).value.state.items| + 1, now, data), operations)
  }

  /** What the head method does is what decoding the record will do. */
  lemma HeadForetells(c: Codec, files: map<string, Bytes>, id: string, data: Data, operations: seq<Operation>, now: Time)
    requires ReadFile(c, files, id).Ok? && now != 0 && Split(data, operations)
    ensures var s, record := ReadFile(c, files, id).value.state, NextRecord(c, files, id, data, operations, now);
            match AppendData(s.head, data, operations, now)
            case Err(_) => Apply(s, record).None?
            case Ok(a) => Apply(s, record).Some? && Apply(s, record).value.head == a.head && a.item == record.item
  {
    hide ValidInput, Decode, ValidReferences;
    var d := ReadFile(c, files, id).value;
    DecodedIsNumbered(c, files[id]);
    if data.StatusData? && AppendStatus(d.state.head, data.status, operations, now).Ok? {
      StatusAppends(d.state.head, data.status, operations, now);
    }
  }

  /** What an append of `data` did: on success exactly its record was written and the item
      made known; otherwise nothing was made known and the file says no more than that
      record. Nothing but a refused input, the codec or the disk makes it fail. */
  ghost predicate DidAppend(c: Codec, before: map<string, Bytes>, after: map<string, Bytes>, known: seq<(string, Entry)>, knows: seq<(string, Entry)>,
                            id: string, data: Data, operations: seq<Operation>, now: Time, works: bool, ok: bool)
  {
    var read := ReadFile(c, before, id);
    && (ok ==> read.Ok?)
    && (read.Ok? ==>
          var record := NextRecord(c, before, id, data, operations, now);
          && (ok ==> Persisted(c, before, after, id, record, true) && knows == known + [(id, record.item.(data := WithOperations(data, operations)))])
          && (!ok ==> knows == known && (after == before || Persisted(c, before, after, id, record, false)))
          && (works && Apply(read.value.state, record).Some? && EncodeRecord(c, record).Some? ==> ok))
    && (read.Err? ==> after == before && knows == known)
  }

  /** An append that did nothing, for one of the reasons to. */
  lemma DidNothing(c: Codec, files: map<string, Bytes>, known: seq<(string, Entry)>, id: string, data: Data, operations: seq<Operation>,
                   now: Time, canceled: bool, works: bool)
    requires canceled || !ValidSessionID(id) || ReadFile(c, files, id).Err?
             || (Split(data, operations) && now != 0 && AppendData(ReadFile(c, files, id).value.state.head, data, operations, now).Err?)
    ensures DidAppend(c, files, files, known, known, id, data, operations, now, !canceled && works, false)
  {
    hide Decode, Apply, AppendData;
    if ReadFile(c, files, id).Ok? {
      DecodedIsNumbered(c, files[id]);
      if !canceled { HeadForetells(c, files, id, data, operations, now); }
    }
  }

  /** What publishing a new log did: all of it or nothing, to this session alone. */
  ghost predicate Published(c: Codec, before: map<string, Bytes>, after: map<string, Bytes>, state: Stored, ok: bool) {
    var id := state.head.session.id;
    && (forall other :: other != id ==> (other in after <==> other in before) && (other in after ==> after[other] == before[other]))
    && (after == before || (ReadFile(c, after, id).Ok? && ReadFile(c, after, id).value.state == state))
    && (ok ==> ReadFile(c, after, id).Ok? && ReadFile(c, after, id).value.state == state)
  }

  lemma PublishReads(c: Codec, before: map<string, Bytes>, state: Stored, encoded: Bytes)
    requires Decode(c, encoded) == Some(Decoded(state, |encoded|))
    ensures var id := state.head.session.id;
            var after := before[id := encoded];
            && ReadFile(c, after, id) == Ok(Decoded(state, |encoded|)) && SameOthers(c, before, after, id)
            && Published(c, before, after, state, true)
            && Published(c, before, after, state, false)
            && SameOthers(c, before, before, id) && Published(c, before, before, state, false)
  {
    hide Decode;
  }

  lemma NothingPublished(c: Codec, before: map<string, Bytes>, state: Stored)
    ensures Published(c, before, before, state, false)
  {
    hide ReadFile;
  }

  /** What a fork did: on success the new session says exactly what forkStoredState makes
      of what the parent says, and its last item is made known. */
  ghost predicate DidFork(c: Codec, before: map<string, Bytes>, after: map<string, Bytes>, known: seq<(string, Entry)>, knows: seq<(string, Entry)>,
                          id: string, parentID: string, turnID: string, now: Time, ok: bool)
  {
    var parent := ReadFile(c, before, parentID);
    && (ok ==> parent.Ok? && SessionState.Fork(parent.value.state, id, turnID, now).Ok? && id != parentID)
    && (!ok ==> knows == known)
    && (after == before || (parent.Ok? && SessionState.Fork(parent.value.state, id, turnID, now).Ok?))
    && (parent.Ok? && SessionState.Fork(parent.value.state, id, turnID, now).Ok? ==>
          var forked := SessionState.Fork(parent.value.state, id, turnID, now).value;
          && Published(c, before, after, forked, ok)
          && (ok ==> knows == known + [(id, Entry(|forked.items|, now, ForkData(parentID, turnID)))]))
  }

  lemma NoFork(c: Codec, files: map<string, Bytes>, known: seq<(string, Entry)>, id: string, parentID: string, turnID: string, now: Time)
    ensures DidFork(c, files, files, known, known, id, parentID, turnID, now, false)
  {
    hide ReadFile, SessionState.Fork;
  }

  /** The initial log of a fork of a readable parent. */
  lemma ForkReads(c: Codec, files: map<string, Bytes>, id: string, parentID: string, turnID: string, now: Time)
    requires Faithful(c) && now != 0 && ReadFile(c, files, parentID).Ok?
    requires SessionState.Fork(ReadFile(c, files, parentID).value.state, id, turnID, now).Ok?
    ensures var f := SessionState.Fork(ReadFile(c, files, parentID).value.state, id, turnID, now).value;
            && f.head.session == Session(id, now) && f.items != []
            && f.items[|f.items| - 1] == Entry(|f.items|, now, ForkData(parentID, turnID))
            && var encoded := EncodeInitial(c, f.head.session, f.items, |f.items|);
            (encoded.Some? ==> Decode(c, encoded.value) == Some(Decoded(f, |encoded.value|)))
  {
    hide Decode, SessionState.Fork, EncodeInitial;
    var parent := ReadFile(c, files, parentID).value.state;
    DecodedIsNumbered(c, files[parentID]);
    ForkedItems(parent, id, turnID, now);
    var f := SessionState.Fork(parent, id, turnID, now).value;
    if EncodeInitial(c, f.head.session, f.items, |f.items|).Some? { ForkRoundTrip(c, parent, id, turnID, now); }
  }

  class Store {
    const codec: Codec
    var files: map<string, Bytes>
    var writeStateCache: map<string, CachedWriteState>
    var notified: seq<(string, Entry)>

    function Shared(): set<Tables>
      reads this
    {
      SharedBy(writeStateCache)
    }

    ghost predicate Coherent()
      reads this, Shared()
    {
      Faithful(codec) && AllBacked(codec, files, writeStateCache)
    }

    /** A new store over the files a crash left behind knows none of them. */
    constructor (c: Codec, found: map<string, Bytes>)
      requires Faithful(c)
      ensures Coherent() && codec == c && files == found && writeStateCache == map[] && notified == []
    {
      codec, files, writeStateCache, notified := c, found, map[], [];
    }

    method ReadState(id: string, canceled: bool) returns (r: Result<Decoded>)
      ensures r.Ok? ==> !canceled && ValidSessionID(id) && r == ReadFile(codec, files, id)
      ensures r.Err? ==> canceled || !ValidSessionID(id) || ReadFile(codec, files, id).Err?
    {
      if !ValidSessionID(id) || canceled { return Err(Invalid); }
      if id !in files { return Err(NotExist); }
      var decoded := DecodeLog(codec, files[id]);
      if decoded.None? || decoded.value.state.head.session.id != id { return Err(Invalid); }
      r := Ok(decoded.value);
    }

    /** The head for a write: the cached one, and so shared with the cache. */
    method LoadWriteState(id: string, canceled: bool) returns (r: Result<CachedWriteState>)
      requires Coherent()
      modifies this`writeStateCache
      ensures Coherent() && fresh(Shared() - old(Shared()))
      ensures r.Ok? ==> !canceled && ReadFile(codec, files, id).Ok? && id in writeStateCache && writeStateCache[id] == r.value
      ensures r.Err? ==> canceled || !ValidSessionID(id) || ReadFile(codec, files, id).Err?
    {
      if !ValidSessionID(id) || canceled { return Err(Invalid); }
      if id in writeStateCache { return Ok(writeStateCache[id]); }
      var read := ReadState(id, canceled);
      if read.Err? { return Err(read.error); }
      var head := Allocate(read.value.state.head);
      PutCachedWriteState(id, head, read.value.committedSize);
      r := Ok(writeStateCache[id]);
    }

    method PutCachedWriteState(id: string, head: HeadRef, committedSize: nat)
      modifies this`writeStateCache
      ensures writeStateCache == old(writeStateCache)[id := CachedWriteState(head, committedSize)]
    {
      writeStateCache := writeStateCache[id := CachedWriteState(head, committedSize)];
    }

    method EvictCachedWriteState(id: string)
      modifies this`writeStateCache
      ensures writeStateCache == old(writeStateCache) - {id}
    {
      writeStateCache := writeStateCache - {id};
    }

    /** appendFile. */
    method AppendFile(id: string, committedSize: nat, data: Bytes, outcome: AppendOutcome) returns (ok: bool)
      requires id in files ==> committedSize <= |files[id]|
      modifies this`files
      ensures ok <==> id in files && outcome.Appends?
      ensures files == if id in old(files) then old(files)[id := AfterAppend(old(files)[id], committedSize, data, outcome)] else old(files)
    {
      if id !in files || outcome.Refuses? {
        assert id in files ==> files == files[id := files[id]];
        return false;
      }
      files := files[id := files[id][..committedSize]];
      var written := if outcome.Torn? then Min(outcome.written, |data|) else |data|;
      assert data[..|data|] == data;
      files := files[id := files[id] + data[..written]];
      ok := outcome.Appends?;
    }

    /** append: the new head replaces the cached one, which it has already changed in
        place, or no entry stays. */
    method Append(id: string, head: HeadRef, committedSize: nat, record: Record, outcome: AppendOutcome) returns (ok: bool)
      requires Faithful(codec) && BackedBut(codec, files, writeStateCache, id)
      requires ReadFile(codec, files, id).Ok? && InBounds(head)
      requires committedSize == ReadFile(codec, files, id).value.committedSize
      requires !(record.ItemRecord? && record.item.data.ForkData?)
      requires var applied := Apply(ReadFile(codec, files, id).value.state, record);
               applied.Some? && applied.value.head == View(head)
      requires forall other :: other in writeStateCache && other != id ==> writeStateCache[other].head.tables != head.tables
      modifies this`files, this`writeStateCache
      ensures Coherent() && Shared() <= old(Shared()) + {head.tables}
      ensures Persisted(codec, old(files), files, id, record, ok)
      ensures ok <==> EncodeRecord(codec, record).Some? && outcome.Appends?
    {
      hide Apply, EncodeRecord, Persisted, AfterAppend, Faithful, Decode, ReadFile, InBounds, View, SameOthers;
      ghost var files0, cache0 := files, writeStateCache;
      var encoded := EncodeRecord(codec, record);
      if encoded.None? {
        NothingPersisted(codec, files, id, record);
        EvictCachedWriteState(id);
        EvictRestores(codec, files0, files, cache0, id);
        return false;
      }
      AppendPersists(codec, files, id, record, outcome);
      ok := AppendFile(id, committedSize, encoded.value, outcome);
      if !ok {
        EvictCachedWriteState(id);
        EvictRestores(codec, files0, files, cache0, id);
        return;
      }
      PutCachedWriteState(id, head, committedSize + |encoded.value|);
      PutRestores(codec, files0, files, cache0, id, CachedWriteState(head, committedSize + |encoded.value|));
    }

    /** append, then the observers. */
    method AppendAndNotify(id: string, taken: Taken, committedSize: nat, operations: seq<Operation>, outcome: AppendOutcome,
                           ghost data: Data, ghost now: Time, ghost canceled: bool)
      returns (ok: bool)
      requires Faithful(codec) && BackedBut(codec, files, writeStateCache, id) && now != 0 && !canceled && Split(data, operations)
      requires ReadFile(codec, files, id).Ok? && InBounds(taken.head)
      requires committedSize == ReadFile(codec, files, id).value.committedSize
      requires AppendData(ReadFile(codec, files, id).value.state.head, data, operations, now) == Ok(Appended(View(taken.head), taken.item))
      requires forall other :: other in writeStateCache && other != id ==> writeStateCache[other].head.tables != taken.head.tables
      modifies this`files, this`writeStateCache, this`notified
      ensures Coherent() && Shared() <= old(Shared()) + {taken.head.tables}
      ensures DidAppend(codec, old(files), files, old(notified), notified, id, data, operations, now, !canceled && outcome.Appends?, ok)
    {
      hide ReadFile, Apply, EncodeRecord, Persisted, AppendData, View, Faithful, BackedBut, AllBacked;
      HeadForetells(codec, files, id, data, operations, now);
      ok := Append(id, taken.head, committedSize, ItemRecord(taken.item, operations), outcome);
      if ok { notified := notified + [(id, taken.item.(data := WithOperations(taken.item.data, operations)))]; }
    }

    method AppendInput(id: string, input: Input, canceled: bool, now: Time, outcome: AppendOutcome) returns (ok: bool)
      requires Coherent() && now != 0
      modifies this`files, this`writeStateCache, this`notified, Shared()
      ensures Coherent() && fresh(Shared() - old(Shared()))
      ensures DidAppend(codec, old(files), files, old(notified), notified, id, InputData(input), [], now, !canceled && outcome.Appends?, ok)
    {
      hide DidAppend, ReadFile, SessionState.AppendInput, View, Faithful;
      var loaded := LoadWriteState(id, canceled);
      if loaded.Err? {
        DidNothing(codec, files, notified, id, InputData(input), [], now, canceled, outcome.Appends?);
        return false;
      }
      var taken := HeadAppendInput(loaded.value.head, input, now);
      if taken.Err? {
        DidNothing(codec, files, notified, id, InputData(input), [], now, canceled, outcome.Appends?);
        return false;
      }
      ok := AppendAndNotify(id, taken.value, loaded.value.committedSize, [], outcome, InputData(input), now, canceled);
    }

    method AppendTurn(id: string, turn: Turn, canceled: bool, now: Time, outcome: AppendOutcome) returns (ok: bool)
      requires Coherent() && now != 0
      modifies this`files, this`writeStateCache, this`notified, Shared()
      ensures Coherent() && fresh(Shared() - old(Shared()))
      ensures DidAppend(codec, old(files), files, old(notified), notified, id, TurnData(turn), [], now, !canceled && outcome.Appends?, ok)
    {
      hide DidAppend, ReadFile, SessionState.AppendTurn, View, Faithful;
      var loaded := LoadWriteState(id, canceled);
      if loaded.Err? {
        DidNothing(codec, files, notified, id, TurnData(turn), [], now, canceled, outcome.Appends?);
        return false;
      }
      var taken := HeadAppendTurn(loaded.value.head, turn, now);
      if taken.Err? {
        DidNothing(codec, files, notified, id, TurnData(turn), [], now, canceled, outcome.Appends?);
        return false;
      }
      ok := AppendAndNotify(id, taken.value, loaded.value.committedSize, [], outcome, TurnData(turn), now, canceled);
    }

    method AppendModelResponse(id: string, turnID: string, response: ContextBuilder.Response, canceled: bool, now: Time, outcome: AppendOutcome) returns (ok: bool)
      requires Coherent() && now != 0
      modifies this`files, this`writeStateCache, this`notified, Shared()
      ensures Coherent() && fresh(Shared() - old(Shared()))
      ensures DidAppend(codec, old(files), files, old(notified), notified, id, ResponseData(turnID, response), [], now, !canceled && outcome.Appends?, ok)
    {
      hide DidAppend, ReadFile, SessionState.AppendResponse, View, Faithful;
      var loaded := LoadWriteState(id, canceled);
      if loaded.Err? {
        DidNothing(codec, files, notified, id, ResponseData(turnID, response), [], now, canceled, outcome.Appends?);
        return false;
      }
      var taken := HeadAppendResponse(loaded.value.head, turnID, response, now);
      if taken.Err? {
        DidNothing(codec, files, notified, id, ResponseData(turnID, response), [], now, canceled, outcome.Appends?);
        return false;
      }
      ok := AppendAndNotify(id, taken.value, loaded.value.committedSize, [], outcome, ResponseData(turnID, response), now, canceled);
    }

    method AppendToolCallStatus(id: string, status: ToolCallStatus, canceled: bool, now: Time, outcome: AppendOutcome) returns (ok: bool)
      requires Coherent() && now != 0
      modifies this`files, this`writeStateCache, this`notified, Shared()
      ensures Coherent() && fresh(Shared() - old(Shared()))
      ensures DidAppend(codec, old(files), files, old(notified), notified, id, StatusData(status.(operations := [])), status.operations, now, !canceled && outcome.Appends?, ok)
    {
      hide DidAppend, ReadFile, SessionState.AppendStatus, View, Faithful;
      var loaded := LoadWriteState(id, canceled);
      if loaded.Err? {
        DidNothing(codec, files, notified, id, StatusData(status.(operations := [])), status.operations, now, canceled, outcome.Appends?);
        return false;
      }
      var taken := HeadAppendStatus(loaded.value.head, status.(operations := []), status.operations, now);
      if taken.Err? {
        DidNothing(codec, files, notified, id, StatusData(status.(operations := [])), status.operations, now, canceled, outcome.Appends?);
        return false;
      }
      ok := AppendAndNotify(id, taken.value, loaded.value.committedSize, status.operations, outcome, StatusData(status.(operations := [])), now, canceled);
    }

    method SaveOperation(id: string, value: Operation, canceled: bool, outcome: AppendOutcome) returns (ok: bool)
      requires Coherent()
      modifies this`files, this`writeStateCache, Shared()
      ensures Coherent() && fresh(Shared() - old(Shared()))
      ensures ok ==> ReadFile(codec, old(files), id).Ok? && Persisted(codec, old(files), files, id, OperationRecord(value), true)
      ensures !ok ==> files == old(files) || (ReadFile(codec, old(files), id).Ok? && Persisted(codec, old(files), files, id, OperationRecord(value), false))
      ensures (!canceled && outcome.Appends? && EncodeRecord(codec, OperationRecord(value)).Some? && ReadFile(codec, old(files), id).Ok? &&
               SessionState.SaveOperation(ReadFile(codec, old(files), id).value.state.head, value).Ok?) ==> ok
    {
      if !ValidOperation(value) { return false; }
      var loaded := LoadWriteState(id, canceled);
      if loaded.Err? {
        if ReadFile(codec, files, id).Ok? { DecodedIsNumbered(codec, files[id]); }
        return false;
      }
      hide ReadFile, SessionState.SaveOperation, View, Faithful, Persisted, EncodeRecord;
      var error := HeadSaveOperation(loaded.value.head, value);
      if error.Some? { return false; }
      ok := Append(id, loaded.value.head, loaded.value.committedSize, OperationRecord(value), outcome);
    }

    /** publishInitialState, of a state whose initial log decodes to it. */
    method PublishInitialState(state: Stored, outcome: PublishOutcome) returns (ok: bool)
      requires Coherent()
      requires var encoded := EncodeInitial(codec, state.head.session, state.items, |state.items|);
               encoded.Some? ==> Decode(codec, encoded.value) == Some(Decoded(state, |encoded.value|))
      modifies this`files, this`writeStateCache
      ensures Coherent() && fresh(Shared() - old(Shared()))
      ensures Published(codec, old(files), files, state, ok)
      ensures ok <==> EncodeInitial(codec, state.head.session, state.items, |state.items|).Some? && outcome.Publishes?
    {
      hide Decode, Faithful, EncodeInitial, Published, ReadFile;
      ghost var files0, cache0 := files, writeStateCache;
      var id := state.head.session.id;
      var encoded := EncodeInitialLog(codec, state.head.session, state.items);
      if encoded.None? {
        NothingPublished(codec, files, state);
        return false;
      }
      PublishReads(codec, files, state, encoded.value);
      if !outcome.FailsBefore? { files := files[id := encoded.value]; }
      if !outcome.Publishes? {
        EvictCachedWriteState(id);
        EvictRestores(codec, files0, files, cache0, id);
        return false;
      }
      var head := Allocate(state.head);
      PutCachedWriteState(id, head, |encoded.value|);
      PutRestores(codec, files0, files, cache0, id, CachedWriteState(head, |encoded.value|));
      ok := true;
    }

    method Create(id: string, canceled: bool, now: Time, outcome: PublishOutcome) returns (ok: bool)
      requires Coherent() && now != 0
      modifies this`files, this`writeStateCache
      ensures Coherent() && fresh(Shared() - old(Shared()))
      ensures Published(codec, old(files), files, NewStored(Session(id, now)), ok)
      ensures ok ==> ValidSessionID(id) && !canceled && outcome.Publishes?
    {
      if !ValidSessionID(id) || canceled { return false; }
      var state := NewStored(Session(id, now));
      if EncodeInitial(codec, state.head.session, state.items, 0).Some? { CreateRoundTrip(codec, Session(id, now)); }
      ok := PublishInitialState(state, outcome);
    }

    method Fork(id: string, parentID: string, previousTurnID: string, canceled: bool, now: Time, outcome: PublishOutcome) returns (ok: bool)
      requires Coherent() && now != 0
      modifies this`files, this`writeStateCache, this`notified
      ensures Coherent() && fresh(Shared() - old(Shared()))
      ensures DidFork(codec, old(files), files, old(notified), notified, id, parentID, previousTurnID, now, ok)
    {
      hide Decode, ReadFile, SessionState.Fork, Faithful, EncodeInitial, Published;
      NoFork(codec, files, notified, id, parentID, previousTurnID, now);
      if !ValidSessionID(id) { return false; }
      if id == parentID { return false; }
      var parent := ReadState(parentID, canceled);
      assert AllBacked(codec, files, writeStateCache);
      if parent.Err? { return false; }
      var forked := ForkStoredState(parent.value.state, id, previousTurnID, now);
      assert AllBacked(codec, files, writeStateCache);
      if forked.Err? { return false; }
      ForkReads(codec, files, id, parentID, previousTurnID, now);
      ok := PublishInitialState(forked.value, outcome);
      if ok { notified := notified + [(id, forked.value.items[|forked.value.items| - 1])]; }
    }

    method Resume(id: string, canceled: bool) returns (r: Result<ResumeState>)
      ensures r.Ok? ==> !canceled && ReadFile(codec, files, id).Ok? && r.value == SessionState.Resume(ReadFile(codec, files, id).value.state)
      ensures r.Err? ==> canceled || !ValidSessionID(id) || ReadFile(codec, files, id).Err?
    {
      var read := ReadState(id, canceled);
      if read.Err? { return Err(read.error); }
      var resumed := ResumeOf(read.value.state);
      r := Ok(resumed);
    }

    /** One page of a session's items. */
    method Items(id: string, after: nat, limit: int, canceled: bool) returns (r: Result<Page>)
      ensures r.Ok? ==> limit > 0 && !canceled && ReadFile(codec, files, id).Ok? && r.value == PageOf(ReadFile(codec, files, id).value.state.items, after, limit)
      ensures r.Err? ==> limit <= 0 || canceled || !ValidSessionID(id) || ReadFile(codec, files, id).Err?
    {
      if limit <= 0 { return Err(Invalid); }
      var read := ReadState(id, canceled);
      if read.Err? { return Err(read.error); }
      var all := read.value.state.items;
      var start := Min(after, |all|);
      var end := Min(start + limit, |all|);
      var items := all[start..end];
      var nextAfter := after;
      if |items| > 0 { nextAfter := items[|items| - 1].sequence; }
      r := Ok(Page(items, nextAfter, end < |all|));
    }

    /** The coordinator's loadHistory: page after page gives every item once, in order,
        and the check that paging advances never fails. */
    method LoadHistory(id: string, pageSize: nat, canceled: bool) returns (r: Result<seq<Entry>>)
      requires pageSize > 0
      ensures r.Ok? <==> !canceled && ReadFile(codec, files, id).Ok?
      ensures r.Ok? ==> r.value == ReadFile(codec, files, id).value.state.items
    {
      if ReadFile(codec, files, id).Ok? { DecodedIsNumbered(codec, files[id]); }
      hide ReadFile, Decode;
      var history := [];
      var after := 0;
      while true
        invariant after > 0 ==> !canceled && ReadFile(codec, files, id).Ok? && after < |ReadFile(codec, files, id).value.state.items|
        invariant ReadFile(codec, files, id).Ok? ==>
                    after <= |ReadFile(codec, files, id).value.state.items| && history == ReadFile(codec, files, id).value.state.items[..after]
        decreases (if ReadFile(codec, files, id).Ok? then |ReadFile(codec, files, id).value.state.items| else 0) - after
      {
        var page := Items(id, after, pageSize, canceled);
        if page.Err? { return Err(page.error); }
        history := history + page.value.items;
        if !page.value.more { return Ok(history); }
        if page.value.nextAfter <= after { return Err(Invalid); }
        after := page.value.nextAfter;
      }
    }
  }

  function PageOf(all: seq<Entry>, after: nat, limit: nat): Page {
    var start := Min(after, |all|);
    var end := Min(start + limit, |all|);
    Page(all[start..end], if start < end then all[end - 1].sequence else after, end < |all|)
  }

  /** The last item of a fork is the fork. */
  lemma ForkedItems(parent: Stored, id: string, turnID: string, at: Time)
    requires Numbered(parent.items) && SessionState.Fork(parent, id, turnID, at).Ok?
    ensures var f := SessionState.Fork(parent, id, turnID, at).value;
            && f.head.session == Session(id, at) && f.items != []
            && f.items[|f.items| - 1] == Entry(|f.items|, at, ForkData(parent.head.session.id, turnID))
  {
    InheritMeaning(Session(id, at), parent.items, Boundary(parent.items, turnID, 0, None).value + 1);
  }

  lemma ApplyKeepsSession(s: Stored, record: Record)
    requires Apply(s, record).Some?
    ensures Apply(s, record).value.head.session == s.head.session
  {
    if record.ItemRecord? && record.item.data.StatusData? {
      StatusAppends(s.head, record.item.data.status, record.operations, record.item.recordedAt);
    }
  }
}
