/**
  The session log (harness/sessionstore/localfile/codec.go): records encoded one a line,
  decoded in two passes.

  JSON is a codec of which only this is used: what it encodes, it decodes again.
 */
module SessionLog {
  import opened Llm
  import opened SessionState
  import opened Utf8

  const NEWLINE: Byte := 10
  const FORMAT_VERSION := 2

  /** A log record as the JSON library sees it; `OtherRecord` has an unknown type. */
  datatype Record =
    | SessionRecord(version: int, session: Session)
    | ItemRecord(item: Entry, operations: seq<Operation>)
    | OperationRecord(operation: Operation)
    | OtherRecord

  datatype Codec = Codec(marshal: Record -> Option<Bytes>, unmarshal: Bytes -> Option<Record>)

  ghost predicate Faithful(c: Codec) {
    forall r :: c.marshal(r).Some? ==> c.unmarshal(c.marshal(r).value) == Some(r)
  }

  /** encodeRecord. */
  function EncodeRecord(c: Codec, r: Record): (e: Option<Bytes>)
    ensures e.Some? ==> |e.value| > 0 && e.value[|e.value| - 1] == NEWLINE && NEWLINE !in e.value[..|e.value| - 1]
  {
    match c.marshal(r)
    case None => None
    case Some(line) =>
      if NEWLINE in line then None
      else
        assert (line + [NEWLINE])[..|line|] == line;
        Some(line + [NEWLINE])
  }

  /** validateSessionID. */
  predicate ValidSessionID(id: string) {
    id != "" && forall i :: 0 <= i < |id| ==> 'a' <= id[i] <= 'z' || 'A' <= id[i] <= 'Z' || '0' <= id[i] <= '9' || id[i] == '-'
  }

  // ------------------------------------------------------------------- lines

  /** The size of the committed part of `b[..n]`: up to and including its last newline. */
  function Committed(b: Bytes, n: nat): (size: nat)
    requires n <= |b|
    ensures size <= n && (size > 0 ==> b[size - 1] == NEWLINE)
    ensures forall i :: size <= i < n ==> b[i] != NEWLINE
  {
    if n == 0 || b[n - 1] == NEWLINE then n else Committed(b, n - 1)
  }

  /** The lines of `b[..n]`, which is empty or ends with a newline. */
  function Lines(b: Bytes, n: nat): seq<Bytes>
    requires n <= |b| && (n > 0 ==> b[n - 1] == NEWLINE)
  {
    if n == 0 then []
    else var start := Committed(b, n - 1); Lines(b, start) + [b[start..n - 1]]
  }

  lemma {:induction false} LinesOfPrefix(a: Bytes, b: Bytes, n: nat)
    requires n <= |a| <= |b| && (n > 0 ==> a[n - 1] == NEWLINE) && forall i :: 0 <= i < n ==> a[i] == b[i]
    ensures Lines(a, n) == Lines(b, n)
  {
    if n > 0 {
      CommittedOfPrefix(a, b, n - 1);
      var start := Committed(a, n - 1);
      LinesOfPrefix(a, b, start);
      assert a[start..n - 1] == b[start..n - 1];
    }
  }

  lemma {:induction false} CommittedOfPrefix(a: Bytes, b: Bytes, n: nat)
    requires n <= |a| <= |b| && forall i :: 0 <= i < n ==> a[i] == b[i]
    ensures Committed(a, n) == Committed(b, n)
  {
    if n > 0 { CommittedOfPrefix(a, b, n - 1); }
  }

  lemma {:induction false} CommittedIs(b: Bytes, size: nat, n: nat)
    requires size <= n <= |b| && (size > 0 ==> b[size - 1] == NEWLINE) && forall i :: size <= i < n ==> b[i] != NEWLINE
    ensures Committed(b, n) == size
  {
    if n > size { CommittedIs(b, size, n - 1); }
  }

  // ---------------------------------------------------------------- decoding

  /** Unmarshal each of the first `k` lines. */
  function Parse(c: Codec, lines: seq<Bytes>, k: nat): Option<seq<Record>>
    requires k <= |lines|
  {
    if k == 0 then Some([])
    else
      match Parse(c, lines, k - 1)
      case None => None
      case Some(records) =>
        match c.unmarshal(lines[k - 1])
        case None => None
        case Some(record) => Some(records + [record])
  }

  function ItemCount(records: seq<Record>, k: nat): (n: nat)
    requires k <= |records|
    ensures n <= k
  {
    if k == 0 then 0 else ItemCount(records, k - 1) + if records[k - 1].ItemRecord? then 1 else 0
  }

  /** How many of the items come from a parent: those up to the last fork. */
  function InheritedCount(records: seq<Record>, k: nat): (n: nat)
    requires k <= |records|
    ensures n <= ItemCount(records, k)
  {
    if k == 0 then 0
    else if records[k - 1].ItemRecord? && records[k - 1].item.data.ForkData? then ItemCount(records, k)
    else InheritedCount(records, k - 1)
  }

  /** The first pass accepts record `k`. */
  predicate Accepted(records: seq<Record>, k: nat)
    requires k < |records|
  {
    match records[k]
    case SessionRecord(version, session) =>
      k == 0 && version == FORMAT_VERSION && ValidSessionID(session.id) && session.createdAt != 0
    case ItemRecord(item, operations) =>
      && k != 0 && item.sequence == ItemCount(records, k) + 1 && item.recordedAt != 0
      && (!item.data.StatusData? ==> operations == [])
    case OperationRecord(_) => k != 0
    case OtherRecord => false
  }

  datatype Replayed = Replayed(state: Stored, items: nat)

  /** The second pass on one record. */
  function ReplayRecord(p: Replayed, record: Record, inherited: nat): Option<Replayed> {
    match record
    case ItemRecord(item, operations) =>
      if p.items < inherited then
        if operations != [] then None else Some(Replayed(Inherit(p.state, item), p.items + 1))
      else
        (match Replay(p.state, item.data, operations, item.recordedAt)
         case Err(_) => None
         case Ok(state) => Some(Replayed(state, p.items + 1)))
    case OperationRecord(operation) =>
      if p.items < inherited then None
      else
        (match SaveOperation(p.state.head, operation)
         case Err(_) => None
         case Ok(head) => Some(p.(state := p.state.(head := head))))
    case _ => Some(p)
  }

  /** The second pass on the first `k` records. */
  function ReplayAll(session: Session, records: seq<Record>, inherited: nat, k: nat): Option<Replayed>
    requires k <= |records|
  {
    if k == 0 then Some(Replayed(NewStored(session), 0))
    else
      match ReplayAll(session, records, inherited, k - 1)
      case None => None
      case Some(p) => ReplayRecord(p, records[k - 1], inherited)
  }

  function DecodeRecords(records: seq<Record>): Option<Stored> {
    if records == [] || !records[0].SessionRecord? || exists k :: 0 <= k < |records| && !Accepted(records, k) then None
    else
      match ReplayAll(records[0].session, records, InheritedCount(records, |records|), |records|)
      case None => None
      case Some(p) => Some(p.state)
  }

  datatype Decoded = Decoded(state: Stored, committedSize: nat)

  /** decodeLog: an incomplete last line is not there. */
  function Decode(c: Codec, b: Bytes): Option<Decoded> {
    var size := Committed(b, |b|);
    var lines := Lines(b, size);
    match Parse(c, lines, |lines|)
    case None => None
    case Some(records) =>
      match DecodeRecords(records)
      case None => None
      case Some(state) => Some(Decoded(state, size))
  }

  // -------------------------------------------------- a decoded log is sound

  lemma {:induction false} ReplayAllSound(session: Session, records: seq<Record>, inherited: nat, k: nat)
    requires k <= |records| && forall j :: 0 <= j < k ==> Accepted(records, j)
    requires ReplayAll(session, records, inherited, k).Some?
    ensures var p := ReplayAll(session, records, inherited, k).value;
            && p.items == ItemCount(records, k) == |p.state.items| == p.state.head.itemSequence
            && Numbered(p.state.items) && p.state.head.session == session
  {
    if k > 0 {
      ReplayAllSound(session, records, inherited, k - 1);
      var p := ReplayAll(session, records, inherited, k - 1).value;
      assert Accepted(records, k - 1);
      if records[k - 1].ItemRecord? { ReplayNumbers(p.state, records[k - 1].item, records[k - 1].operations); }
    }
  }

  lemma ReplayNumbers(s: Stored, item: Entry, operations: seq<Operation>)
    requires s.head.itemSequence == |s.items| && Numbered(s.items)
    requires item.sequence == |s.items| + 1 && item.recordedAt != 0
    ensures var t := Inherit(s, item);
            |t.items| == |s.items| + 1 == t.head.itemSequence && Numbered(t.items) && t.head.session == s.head.session
    ensures Replay(s, item.data, operations, item.recordedAt).Ok? ==>
              var t := Replay(s, item.data, operations, item.recordedAt).value;
              |t.items| == |s.items| + 1 == t.head.itemSequence && Numbered(t.items) && t.head.session == s.head.session
  {
    hide ValidInput, ValidReferences;
    if item.data.StatusData? && AppendStatus(s.head, item.data.status, operations, item.recordedAt).Ok? { StatusAppends(s.head, item.data.status, operations, item.recordedAt); }
  }

  lemma StatusAppends(h: Head, status: ToolCallStatus, operations: seq<Operation>, at: Time)
    requires AppendStatus(h, status, operations, at).Ok?
    ensures var r := AppendStatus(h, status, operations, at).value;
            && r.item == Entry(h.itemSequence + 1, at, StatusData(status))
            && r.head.itemSequence == h.itemSequence + 1 && r.head.session == h.session
  {
    var key := StatusKey(status.turnID, status.callID);
    if key !in h.toolCallStatuses { InitializeSequence(h.(toolCallStatuses := h.toolCallStatuses + {key}), operations, |operations|); }
  }

  lemma {:induction false} InitializeSequence(h: Head, operations: seq<Operation>, k: nat)
    requires k <= |operations|
    ensures Initialize(h, operations, k).itemSequence == h.itemSequence && Initialize(h, operations, k).session == h.session
  {
    if k > 0 { InitializeSequence(h, operations, k - 1); }
  }

  /** What decodes has its items numbered from 1, each with a time: what paging relies on. */
  lemma DecodedIsNumbered(c: Codec, b: Bytes)
    requires Decode(c, b).Some?
    ensures var s := Decode(c, b).value.state;
            Numbered(s.items) && s.head.itemSequence == |s.items| && ValidSessionID(s.head.session.id)
  {
    var size := Committed(b, |b|);
    var lines := Lines(b, size);
    var records := Parse(c, lines, |lines|).value;
    assert Accepted(records, 0);
    ReplayAllSound(records[0].session, records, InheritedCount(records, |records|), |records|);
  }

  // ------------------------------------------------------------- one more record

  /** An owned record, on a decoded state. */
  function Apply(s: Stored, record: Record): Option<Stored> {
    match record
    case ItemRecord(item, operations) =>
      if item.sequence != |s.items| + 1 || item.recordedAt == 0 || (!item.data.StatusData? && operations != []) then None
      else
        (match Replay(s, item.data, operations, item.recordedAt) case Err(_) => None case Ok(t) => Some(t))
    case OperationRecord(operation) =>
      (match SaveOperation(s.head, operation) case Err(_) => None case Ok(h) => Some(s.(head := h)))
    case _ => None
  }

  lemma {:induction false} CountsOfPrefix(records: seq<Record>, more: seq<Record>, k: nat)
    requires k <= |records| <= |more| && forall i :: 0 <= i < k ==> records[i] == more[i]
    ensures ItemCount(records, k) == ItemCount(more, k) && InheritedCount(records, k) == InheritedCount(more, k)
  {
    if k > 0 { CountsOfPrefix(records, more, k - 1); }
  }

  lemma AcceptedOfPrefix(records: seq<Record>, more: seq<Record>, k: nat)
    requires k < |records| <= |more| && forall i :: 0 <= i <= k ==> records[i] == more[i]
    ensures Accepted(records, k) <==> Accepted(more, k)
  {
    CountsOfPrefix(records, more, k);
  }

  lemma {:induction false} ReplayOfPrefix(session: Session, records: seq<Record>, more: seq<Record>, inherited: nat, k: nat)
    requires k <= |records| <= |more| && forall i :: 0 <= i < k ==> records[i] == more[i]
    ensures ReplayAll(session, records, inherited, k) == ReplayAll(session, more, inherited, k)
  {
    if k > 0 { ReplayOfPrefix(session, records, more, inherited, k - 1); }
  }

  /** Decoding one more owned record applies it to what was decoded before; forks are
      written only when a log begins. */
  lemma DecodeOneMore(records: seq<Record>, record: Record)
    requires DecodeRecords(records).Some?
    requires !(record.ItemRecord? && record.item.data.ForkData?)
    ensures DecodeRecords(records + [record]) == Apply(DecodeRecords(records).value, record)
  {
    hide Replay, SaveOperation, Inherit, ValidSessionID;
    var more, n := records + [record], |records|;
    var session := records[0].session;
    forall k | 0 <= k < n ensures Accepted(more, k) {
      assert Accepted(records, k);
      AcceptedOfPrefix(records, more, k);
    }
    CountsOfPrefix(records, more, n);
    var inherited := InheritedCount(records, n);
    assert InheritedCount(more, n + 1) == inherited;
    ReplayOfPrefix(session, records, more, inherited, n);
    ReplayAllSound(session, records, inherited, n);
    if Accepted(more, n) {
      assert forall k :: 0 <= k < n + 1 ==> Accepted(more, k);
      assert ReplayAll(session, more, inherited, n + 1) == ReplayRecord(ReplayAll(session, more, inherited, n).value, record, inherited);
    }
  }

  /** The records of a log, if every line of it can be read. */
  function Records(c: Codec, b: Bytes): Option<seq<Record>> {
    var lines := Lines(b, Committed(b, |b|));
    Parse(c, lines, |lines|)
  }

  lemma {:induction false} ParseOfPrefix(c: Codec, lines: seq<Bytes>, more: seq<Bytes>, k: nat)
    requires k <= |lines| <= |more| && forall i :: 0 <= i < k ==> lines[i] == more[i]
    ensures Parse(c, lines, k) == Parse(c, more, k)
  {
    if k > 0 { ParseOfPrefix(c, lines, more, k - 1); }
  }

  /** A record has no newline but its last byte. */
  lemma QuietTail(b: Bytes, line: Bytes, p: nat)
    requires p < |line| && NEWLINE !in line[..|line| - 1]
    ensures forall i :: |b| <= i < |b| + p ==> (b + line)[i] != NEWLINE && (b + line[..p])[i] != NEWLINE
  {
    forall i | |b| <= i < |b| + p ensures (b + line)[i] != NEWLINE && (b + line[..p])[i] != NEWLINE {
      assert (b + line)[i] == line[..|line| - 1][i - |b|];
      assert (b + line[..p])[i] == line[..|line| - 1][i - |b|];
    }
  }

  lemma CommittedWhole(b: Bytes)
    requires Committed(b, |b|) == |b|
    ensures |b| > 0 ==> b[|b| - 1] == NEWLINE
  {
  }

  /** A whole line more is one more line. */
  lemma OneMoreLine(b: Bytes, line: Bytes)
    requires Committed(b, |b|) == |b| && |line| > 0 && line[|line| - 1] == NEWLINE && NEWLINE !in line[..|line| - 1]
    ensures Committed(b + line, |b + line|) == |b + line|
    ensures Lines(b + line, |b + line|) == Lines(b, |b|) + [line[..|line| - 1]]
  {
    hide Committed;
    var all := b + line;
    QuietTail(b, line, |line| - 1);
    CommittedIs(all, |b|, |all| - 1);
    CommittedIs(all, |all|, |all|);
    LinesOfPrefix(b, all, |b|);
    assert all[|b|..|all| - 1] == line[..|line| - 1];
  }

  /** Part of a line more is nothing more. */
  lemma PartOfALine(b: Bytes, line: Bytes, p: nat)
    requires Committed(b, |b|) == |b| && |line| > 0 && NEWLINE !in line[..|line| - 1] && p < |line|
    ensures Committed(b + line[..p], |b| + p) == |b|
    ensures Lines(b + line[..p], |b|) == Lines(b, |b|)
  {
    hide Committed, Lines;
    var all := b + line[..p];
    QuietTail(b, line, p);
    CommittedWhole(b);
    CommittedIs(all, |b|, |all|);
    LinesOfPrefix(b, all, |b|);
  }

  /** Torn writes are atomic: of an appended record either nothing is seen, at any point
      where the write broke off, or all of it. */
  lemma TornAppend(c: Codec, b: Bytes, record: Record, p: nat)
    requires Faithful(c) && EncodeRecord(c, record).Some? && p <= |EncodeRecord(c, record).value|
    requires Decode(c, b).Some? && Decode(c, b).value.committedSize == |b|
    requires !(record.ItemRecord? && record.item.data.ForkData?)
    ensures var line := EncodeRecord(c, record).value;
            Decode(c, b + line[..p]) ==
            if p < |line| then Decode(c, b)
            else match Apply(Decode(c, b).value.state, record)
                 case None => None
                 case Some(t) => Some(Decoded(t, |b| + |line|))
  {
    hide DecodeRecords, Lines, Apply;
    var line := EncodeRecord(c, record).value;
    if p < |line| {
      PartOfALine(b, line, p);
    } else {
      assert line[..p] == line;
      OneMoreLine(b, line);
      var lines := Lines(b, |b|);
      var more := lines + [line[..|line| - 1]];
      ParseOfPrefix(c, lines, more, |lines|);
      assert line[..|line| - 1] == c.marshal(record).value;
      DecodeOneMore(Parse(c, lines, |lines|).value, record);
    }
  }

  /** The tail that a later append truncates away never counted. */
  lemma TailIsIgnored(c: Codec, b: Bytes)
    ensures var size := Committed(b, |b|);
            Decode(c, b[..size]) == Decode(c, b)
  {
    var size := Committed(b, |b|);
    CommittedIs(b[..size], size, size);
    LinesOfPrefix(b[..size], b, size);
  }

  // ------------------------------------------------------------- initial logs

  /** A status' operations are kept beside the item. */
  function RecordOf(item: Entry): Record {
    ItemRecord(Stripped(item), if item.data.StatusData? then item.data.status.operations else [])
  }

  /** encodeInitialLog, up to the first `k` items. */
  function EncodeInitial(c: Codec, session: Session, items: seq<Entry>, k: nat): Option<Bytes>
    requires k <= |items|
  {
    if k == 0 then
      if !ValidSessionID(session.id) then None else EncodeRecord(c, SessionRecord(FORMAT_VERSION, session))
    else
      match EncodeInitial(c, session, items, k - 1)
      case None => None
      case Some(encoded) =>
        if items[k - 1].sequence != k || items[k - 1].recordedAt == 0 then None
        else
          match EncodeRecord(c, RecordOf(items[k - 1]))
          case None => None
          case Some(line) => Some(encoded + line)
  }

  /** encodeInitialLog, by the loop it is. */
  method EncodeInitialLog(c: Codec, session: Session, items: seq<Entry>) returns (r: Option<Bytes>)
    ensures r == EncodeInitial(c, session, items, |items|)
  {
    if !ValidSessionID(session.id) {
      NoPrefixNoLog(c, session, items, 0);
      return None;
    }
    r := EncodeRecord(c, SessionRecord(FORMAT_VERSION, session));
    if r.None? {
      NoPrefixNoLog(c, session, items, 0);
      return;
    }
    for index := 0 to |items|
      invariant r.Some? && r == EncodeInitial(c, session, items, index)
    {
      var item := items[index];
      var line := None;
      if item.sequence == index + 1 && item.recordedAt != 0 { line := EncodeRecord(c, RecordOf(item)); }
      if line.None? {
        NoPrefixNoLog(c, session, items, index + 1);
        return None;
      }
      r := Some(r.value + line.value);
    }
  }

  lemma {:induction false} NoPrefixNoLog(c: Codec, session: Session, items: seq<Entry>, k: nat)
    requires k <= |items| && EncodeInitial(c, session, items, k).None?
    ensures EncodeInitial(c, session, items, |items|).None?
    decreases |items| - k
  {
    if k < |items| { NoPrefixNoLog(c, session, items, k + 1); }
  }

  /** The records of an initial log. */
  function InitialRecords(session: Session, items: seq<Entry>, k: nat): (r: seq<Record>)
    requires k <= |items|
    ensures |r| == k + 1 && r[0] == SessionRecord(FORMAT_VERSION, session)
    ensures forall i :: 0 <= i < k ==> r[i + 1] == RecordOf(items[i])
  {
    if k == 0 then [SessionRecord(FORMAT_VERSION, session)]
    else InitialRecords(session, items, k - 1) + [RecordOf(items[k - 1])]
  }

  lemma {:induction false} InitialRecordsRead(c: Codec, session: Session, items: seq<Entry>, k: nat)
    requires Faithful(c) && k <= |items| && EncodeInitial(c, session, items, k).Some?
    ensures var b := EncodeInitial(c, session, items, k).value;
            Committed(b, |b|) == |b| && Records(c, b) == Some(InitialRecords(session, items, k))
  {
    hide Lines, Committed;
    var record := if k == 0 then SessionRecord(FORMAT_VERSION, session) else RecordOf(items[k - 1]);
    var line := EncodeRecord(c, record).value;
    assert line[..|line| - 1] == c.marshal(record).value;
    var before: Bytes := [];
    if k == 0 {
      NoLines();
      assert [] + line == line;
    } else {
      InitialRecordsRead(c, session, items, k - 1);
      before := EncodeInitial(c, session, items, k - 1).value;
    }
    OneMoreLine(before, line);
    OneMoreRecord(c, Lines(before, |before|), record, line[..|line| - 1]);
    assert InitialRecords(session, items, k) == (if k == 0 then [] else InitialRecords(session, items, k - 1)) + [record];
  }

  lemma OneMoreRecord(c: Codec, lines: seq<Bytes>, record: Record, line: Bytes)
    requires Parse(c, lines, |lines|).Some? && c.unmarshal(line) == Some(record)
    ensures Parse(c, lines + [line], |lines| + 1) == Some(Parse(c, lines, |lines|).value + [record])
  {
    ParseOfPrefix(c, lines, lines + [line], |lines|);
  }

  lemma NoLines()
    ensures Committed([], 0) == 0 && Lines([], 0) == []
  {
  }

  lemma {:induction false} InitialCounts(session: Session, items: seq<Entry>, k: nat)
    requires k <= |items|
    ensures ItemCount(InitialRecords(session, items, |items|), k + 1) == k
    ensures k > 0 && items[k - 1].data.ForkData? ==> InheritedCount(InitialRecords(session, items, |items|), k + 1) == k
  {
    var records := InitialRecords(session, items, |items|);
    if k == 0 {
      assert ItemCount(records, 0) == 0;
    } else {
      InitialCounts(session, items, k - 1);
      assert records[k] == RecordOf(items[k - 1]);
    }
  }

  lemma StripTwice(s: Stored, item: Entry)
    ensures Inherit(s, Stripped(item)) == Inherit(s, item)
  {
  }

  lemma {:induction false} InitialReplay(session: Session, items: seq<Entry>, k: nat)
    requires k <= |items| && forall i :: 0 <= i < |items| ==> items[i] == Stripped(items[i])
    ensures ReplayAll(session, InitialRecords(session, items, |items|), |items|, k + 1) ==
            Some(Replayed(InheritAll(NewStored(session), items, k), k))
  {
    hide Inherit;
    var records := InitialRecords(session, items, |items|);
    if k == 0 {
      assert ReplayAll(session, records, |items|, 0) == Some(Replayed(NewStored(session), 0));
    } else {
      InitialReplay(session, items, k - 1);
      assert records[k] == RecordOf(items[k - 1]);
    }
  }

  /** A new session decodes to an empty one. */
  lemma CreateRoundTrip(c: Codec, session: Session)
    requires Faithful(c) && session.createdAt != 0 && EncodeInitial(c, session, [], 0).Some?
    ensures var b := EncodeInitial(c, session, [], 0).value;
            Decode(c, b) == Some(Decoded(NewStored(session), |b|))
  {
    InitialRecordsRead(c, session, [], 0);
    var records := InitialRecords(session, [], 0);
    assert forall k :: 0 <= k < |records| ==> Accepted(records, k);
    InitialCounts(session, [], 0);
    InitialReplay(session, [], 0);
  }

  lemma {:induction false} InitialValidID(c: Codec, session: Session, items: seq<Entry>, k: nat)
    requires k <= |items| && EncodeInitial(c, session, items, k).Some?
    ensures ValidSessionID(session.id)
  {
    if k > 0 { InitialValidID(c, session, items, k - 1); }
  }

  /** An initial log that ends with a fork decodes to what its items are inherited as. */
  lemma InitialDecodes(c: Codec, session: Session, items: seq<Entry>)
    requires Faithful(c) && session.createdAt != 0 && EncodeInitial(c, session, items, |items|).Some?
    requires Numbered(items) && (forall i :: 0 <= i < |items| ==> items[i] == Stripped(items[i]))
    requires items != [] && items[|items| - 1].data.ForkData?
    ensures var b := EncodeInitial(c, session, items, |items|).value;
            Decode(c, b) == Some(Decoded(InheritAll(NewStored(session), items, |items|), |b|))
  {
    hide Inherit, InheritAll, EncodeInitial, InitialRecords, ItemCount, InheritedCount, ReplayAll, ValidSessionID;
    var n := |items|;
    InitialValidID(c, session, items, n);
    InitialRecordsRead(c, session, items, n);
    InitialCounts(session, items, n);
    InitialReplay(session, items, n);
    var records := InitialRecords(session, items, n);
    forall k | 0 <= k < |records| ensures Accepted(records, k) {
      if k > 0 {
        InitialCounts(session, items, k - 1);
        assert records[k] == RecordOf(items[k - 1]);
      }
    }
  }

  /** Inheriting a fork's items gives the fork. */
  lemma {:induction false} InheritedAgain(session: Session, parent: seq<Entry>, items: seq<Entry>, k: nat)
    requires k <= |parent| && k <= |items| && forall i :: 0 <= i < k ==> items[i] == Stripped(parent[i])
    ensures InheritAll(NewStored(session), items, k) == InheritAll(NewStored(session), parent, k)
  {
    hide Inherit;
    if k > 0 {
      InheritedAgain(session, parent, items, k - 1);
      StripTwice(InheritAll(NewStored(session), items, k - 1), parent[k - 1]);
    }
  }

  lemma ForkIsInherited(s: Stored, parentID: string, turnID: string, at: Time)
    ensures AppendFork(s, parentID, turnID, at) == Inherit(s, Entry(s.head.itemSequence + 1, at, ForkData(parentID, turnID)))
  {
  }

  /** The initial log of a fork (also of a fork of forks) decodes to exactly the state the
      fork was given. */
  lemma ForkRoundTrip(c: Codec, parent: Stored, id: string, turnID: string, at: Time)
    requires Faithful(c) && Numbered(parent.items) && at != 0 && Fork(parent, id, turnID, at).Ok?
    requires var f := Fork(parent, id, turnID, at).value; EncodeInitial(c, f.head.session, f.items, |f.items|).Some?
    ensures var f := Fork(parent, id, turnID, at).value;
            var b := EncodeInitial(c, f.head.session, f.items, |f.items|).value;
            Decode(c, b) == Some(Decoded(f, |b|))
  {
    hide Inherit, Boundary, EncodeInitial, TurnsAre, LastTurn;
    var f := Fork(parent, id, turnID, at).value;
    var session, items := Session(id, at), f.items;
    var k := Boundary(parent.items, turnID, 0, None).value + 1;
    InheritMeaning(session, parent.items, k);
    assert f == AppendFork(InheritAll(NewStored(session), parent.items, k), parent.head.session.id, turnID, at);
    InheritedAgain(session, parent.items, items, k);
    ForkIsInherited(InheritAll(NewStored(session), parent.items, k), parent.head.session.id, turnID, at);
    InitialDecodes(c, session, items);
  }

  // ------------------------------------------------------------ later appends

  function ApplyAll(s: Stored, records: seq<Record>, k: nat): Option<Stored>
    requires k <= |records|
  {
    if k == 0 then Some(s)
    else match ApplyAll(s, records, k - 1) case None => None case Some(t) => Apply(t, records[k - 1])
  }

  function EncodeAll(c: Codec, records: seq<Record>, k: nat): Option<Bytes>
    requires k <= |records|
  {
    if k == 0 then Some([])
    else
      match EncodeAll(c, records, k - 1)
      case None => None
      case Some(b) => (match EncodeRecord(c, records[k - 1]) case None => None case Some(line) => Some(b + line))
  }

  /** Whatever is appended to a log later applies, record by record, to what the log said
      before: an old log never reads differently for being longer. */
  lemma {:induction false} LaterAppends(c: Codec, b: Bytes, records: seq<Record>, k: nat)
    requires Faithful(c) && k <= |records| && EncodeAll(c, records, k).Some?
    requires Decode(c, b).Some? && Decode(c, b).value.committedSize == |b|
    requires forall i :: 0 <= i < k ==> !(records[i].ItemRecord? && records[i].item.data.ForkData?)
    requires ApplyAll(Decode(c, b).value.state, records, k).Some?
    ensures var more := b + EncodeAll(c, records, k).value;
            Decode(c, more) == Some(Decoded(ApplyAll(Decode(c, b).value.state, records, k).value, |more|))
  {
    hide Decode, Apply;
    if k == 0 {
      assert b + [] == b;
    } else {
      LaterAppends(c, b, records, k - 1);
      var before := b + EncodeAll(c, records, k - 1).value;
      var line := EncodeRecord(c, records[k - 1]).value;
      TornAppend(c, before, records[k - 1], |line|);
      assert line[..|line|] == line;
      assert b + (EncodeAll(c, records, k - 1).value + line) == before + line;
    }
  }

  /** What appends and operation updates make of a sound state is sound. */
  lemma ApplySound(s: Stored, record: Record)
    requires Sound(s) && Apply(s, record).Some?
    ensures Sound(Apply(s, record).value)
  {
    hide Sound, Replay, SaveOperation;
    match record
    case ItemRecord(item, operations) => ReplaySound(s, item.data, operations, item.recordedAt);
    case OperationRecord(operation) => SaveSound(s, operation);
    case _ =>
  }

  lemma {:induction false} AppliedSound(s: Stored, records: seq<Record>, k: nat)
    requires Sound(s) && k <= |records| && ApplyAll(s, records, k).Some?
    ensures Sound(ApplyAll(s, records, k).value)
  {
    hide Sound, Apply;
    if k > 0 {
      AppliedSound(s, records, k - 1);
      ApplySound(ApplyAll(s, records, k - 1).value, records[k - 1]);
    }
  }

  /** A log that began with a new session or a fork and was only appended to decodes, at any
      later time, to a sound state: one that a fork may be taken from. */
  lemma LogStaysSound(c: Codec, b: Bytes, records: seq<Record>)
    requires Faithful(c) && EncodeAll(c, records, |records|).Some?
    requires Decode(c, b).Some? && Decode(c, b).value.committedSize == |b| && Sound(Decode(c, b).value.state)
    requires forall i :: 0 <= i < |records| ==> !(records[i].ItemRecord? && records[i].item.data.ForkData?)
    requires ApplyAll(Decode(c, b).value.state, records, |records|).Some?
    ensures var more := b + EncodeAll(c, records, |records|).value;
            Decode(c, more).Some? && Sound(Decode(c, more).value.state)
  {
    hide Sound, Decode, Apply;
    LaterAppends(c, b, records, |records|);
    AppliedSound(Decode(c, b).value.state, records, |records|);
  }

  // ------------------------------------------------------------- the decoder

  /** Some record among the first `k` lines cannot be read or is not accepted. */
  predicate Refused(c: Codec, lines: seq<Bytes>, k: nat)
    requires k <= |lines|
  {
    match Parse(c, lines, k)
    case None => true
    case Some(records) => exists j :: 0 <= j < |records| && !Accepted(records, j)
  }

  lemma {:induction false} ParsedLength(c: Codec, lines: seq<Bytes>, k: nat)
    requires k <= |lines| && Parse(c, lines, k).Some?
    ensures |Parse(c, lines, k).value| == k
  {
    if k > 0 { ParsedLength(c, lines, k - 1); }
  }

  lemma {:induction false} StaysRefused(c: Codec, lines: seq<Bytes>, k: nat)
    requires k <= |lines| && Refused(c, lines, k)
    ensures Refused(c, lines, |lines|)
    decreases |lines| - k
  {
    hide Accepted;
    if k < |lines| {
      if Parse(c, lines, k).Some? && Parse(c, lines, k + 1).Some? {
        var records, more := Parse(c, lines, k).value, Parse(c, lines, k + 1).value;
        var j :| 0 <= j < |records| && !Accepted(records, j);
        AcceptedOfPrefix(records, more, j);
      }
      StaysRefused(c, lines, k + 1);
    }
  }

  lemma {:induction false} StaysFailed(session: Session, records: seq<Record>, inherited: nat, k: nat)
    requires k <= |records| && ReplayAll(session, records, inherited, k).None?
    ensures ReplayAll(session, records, inherited, |records|).None?
    decreases |records| - k
  {
    if k < |records| { StaysFailed(session, records, inherited, k + 1); }
  }

  lemma AcceptedSnoc(records: seq<Record>, record: Record)
    requires forall j :: 0 <= j < |records| ==> Accepted(records, j)
    ensures (forall j :: 0 <= j <= |records| ==> Accepted(records + [record], j)) <==> Accepted(records + [record], |records|)
    ensures ItemCount(records + [record], |records|) == ItemCount(records, |records|)
    ensures InheritedCount(records + [record], |records|) == InheritedCount(records, |records|)
  {
    CountsOfPrefix(records, records + [record], |records|);
    forall j | 0 <= j < |records| ensures Accepted(records + [record], j) {
      AcceptedOfPrefix(records, records + [record], j);
    }
  }

  /** The first pass: the header, the other records and how many items are inherited. */
  method ReadRecords(c: Codec, lines: seq<Bytes>) returns (ok: bool, records: seq<Record>, value: Stored, inheritedItemCount: nat)
    requires lines != []
    ensures ok <==> !Refused(c, lines, |lines|)
    ensures ok ==>
              && Parse(c, lines, |lines|) == Some([SessionRecord(FORMAT_VERSION, value.head.session)] + records)
              && value == NewStored(value.head.session)
              && inheritedItemCount == InheritedCount([SessionRecord(FORMAT_VERSION, value.head.session)] + records, |records| + 1)
  {
    hide Accepted;
    ok, records, value, inheritedItemCount := true, [], NewStored(Session("", 0)), 0;
    var itemCount := 0;
    ghost var parsed: seq<Record> := [];
    for lineIndex := 0 to |lines|
      invariant ok && Parse(c, lines, lineIndex) == Some(parsed) && |parsed| == lineIndex
      invariant forall j :: 0 <= j < lineIndex ==> Accepted(parsed, j)
      invariant lineIndex == 0 ==> records == []
      invariant lineIndex > 0 ==> value == NewStored(value.head.session) && parsed == [SessionRecord(FORMAT_VERSION, value.head.session)] + records
      invariant itemCount == ItemCount(parsed, lineIndex) && inheritedItemCount == InheritedCount(parsed, lineIndex)
    {
      var record := c.unmarshal(lines[lineIndex]);
      if record.None? {
        StaysRefused(c, lines, lineIndex + 1);
        return false, [], value, 0;
      }
      AcceptedSnoc(parsed, record.value);
      ok := AcceptRecord(record.value, lineIndex, itemCount, parsed);
      if !ok {
        StaysRefused(c, lines, lineIndex + 1);
        return false, [], value, 0;
      }
      match record.value {
        case SessionRecord(_, session) =>
          value := NewStored(session);
        case ItemRecord(item, _) =>
          itemCount := itemCount + 1;
          if item.data.ForkData? { inheritedItemCount := itemCount; }
          records := records + [record.value];
        case _ =>
          records := records + [record.value];
      }
      parsed := parsed + [record.value];
    }
  }

  method AcceptRecord(record: Record, lineIndex: nat, itemCount: nat, ghost parsed: seq<Record>) returns (ok: bool)
    requires |parsed| == lineIndex && itemCount == ItemCount(parsed + [record], lineIndex)
    ensures ok <==> Accepted(parsed + [record], lineIndex)
    ensures ok ==> !record.OtherRecord? && (record.SessionRecord? <==> lineIndex == 0)
    ensures ok && record.SessionRecord? ==> record.version == FORMAT_VERSION
  {
    match record {
      case SessionRecord(version, session) =>
        if lineIndex != 0 { return false; }
        if version != FORMAT_VERSION { return false; }
        return ValidSessionID(session.id) && session.createdAt != 0;
      case ItemRecord(item, operations) =>
        if lineIndex == 0 { return false; }
        if item.sequence != itemCount + 1 || item.recordedAt == 0 { return false; }
        return item.data.StatusData? || |operations| == 0;
      case OperationRecord(_) =>
        return lineIndex != 0;
      case OtherRecord =>
        return false;
    }
  }

  /** decodeLog, by the two passes it is. */
  method DecodeLog(c: Codec, encoded: Bytes) returns (r: Option<Decoded>)
    ensures r == Decode(c, encoded)
  {
    hide Accepted, Inherit, Replay, SaveOperation, Parse;
    var committedSize := Committed(encoded, |encoded|);
    if committedSize == 0 {
      NothingParsed(c);
      return None;
    }
    var lines := Lines(encoded, committedSize);
    var ok, records, value, inheritedItemCount := ReadRecords(c, lines);
    if !ok { return None; }
    ghost var session := value.head.session;
    ghost var parsed := [SessionRecord(FORMAT_VERSION, session)] + records;
    var replayedItems := 0;
    for index := 0 to |records|
      invariant ReplayAll(session, parsed, inheritedItemCount, index + 1) == Some(Replayed(value, replayedItems))
    {
      assert parsed[index + 1] == records[index];
      var next := ReplayRecord(Replayed(value, replayedItems), records[index], inheritedItemCount);
      if next.None? {
        StaysFailed(session, parsed, inheritedItemCount, index + 2);
        return None;
      }
      value, replayedItems := next.value.state, next.value.items;
    }
    r := Some(Decoded(value, committedSize));
  }

  lemma NothingParsed(c: Codec)
    ensures Parse(c, [], 0) == Some([]) && DecodeRecords([]).None?
  {
  }
}
