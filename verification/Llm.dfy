/**
  The conversation items exchanged with a model (harness/llm/model.go).

  JSON, images and base64 data are foreign to the model: where the source asks a
  library to classify such a value, the value carries the answer as a constructor
  or a flag, so that both outcomes stay reachable.
 */
module Llm {

  datatype Option<+T> = None | Some(value: T)

  datatype Role = RoleUser | RoleAssistant | RoleSystem | RoleOther(name: string)

  /** Tool-call arguments as the JSON decoder sees them. `BadObject` is an object
      the decoder refuses (for instance a duplicated member name). */
  datatype Arguments = JsonObject(text: string) | NotAnObject(text: string) | BadObject(text: string)

  datatype Part =
    | TextPart(value: string)
    | ImagePart(source: string, supported: bool)
    | OtherPart(kind: string)

  /** `Malformed` is an item whose type is unknown or disagrees with its data. */
  datatype Item =
    | Message(role: Role, text: string)
    | ToolCall(callID: string, name: string, arguments: Arguments)
    | ToolResult(callID: string, output: seq<Part>, running: bool)
    | Provider(raw: string, isNull: bool)
    | Malformed

  /** Item.Validate. */
  predicate Valid(item: Item) {
    match item
    case Malformed => false
    case Provider(raw, isNull) => raw != "" && !isNull
    case _ => true
  }

  /** Which party of a Messages conversation an item belongs to. */
  datatype Side = User | Assistant

  /** requestItemRole: None is an error. */
  function ItemSide(item: Item): Option<Side> {
    if !Valid(item) then None else
    match item
    case Message(RoleUser, _) => Some(User)
    case Message(RoleAssistant, _) => Some(Assistant)
    case Message(_, _) => None
    case ToolResult(_, _, _) => Some(User)
    case _ => Some(Assistant)
  }

  /** The IDs of the tool calls among `items[a..b]`, in order. */
  function CallIDs(items: seq<Item>, a: nat, b: nat): seq<string>
    requires a <= b <= |items|
  {
    if a == b then []
    else if items[b - 1].ToolCall? then CallIDs(items, a, b - 1) + [items[b - 1].callID]
    else CallIDs(items, a, b - 1)
  }

  /** Two's-complement wrap-around of a 64-bit signed integer. */
  function Wrap64(x: int): int {
    (x + 0x8000_0000_0000_0000) % 0x1_0000_0000_0000_0000 - 0x8000_0000_0000_0000
  }

  /** The runes strings.TrimSpace removes (Unicode White_Space). */
  predicate IsSpace(c: char) {
    || '\t' <= c <= '\r' || c == ' ' || c == 0x85 as char || c == 0xA0 as char
    || c == 0x1680 as char || 0x2000 as char <= c <= 0x200A as char
    || c == 0x2028 as char || c == 0x2029 as char || c == 0x202F as char
    || c == 0x205F as char || c == 0x3000 as char
  }

  function TrimLeft(s: string): string {
    if s != "" && IsSpace(s[0]) then TrimLeft(s[1..]) else s
  }

  function TrimRight(s: string): string {
    if s != "" && IsSpace(s[|s| - 1]) then TrimRight(s[..|s| - 1]) else s
  }

  function TrimSpace(s: string): string {
    TrimRight(TrimLeft(s))
  }

  lemma {:induction false} CallIDsSplit(items: seq<Item>, a: nat, b: nat, c: nat)
    requires a <= b <= c <= |items|
    ensures CallIDs(items, a, c) == CallIDs(items, a, b) + CallIDs(items, b, c)
  {
    if b < c { CallIDsSplit(items, a, b, c - 1); }
  }
}
