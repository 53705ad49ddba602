/** The loosely typed values the pipeline passes around (the model dictionary,
    script parameters, script responses) and their compact JSON text
    (RFC 8259), as Foundation's JSONSerialization writes it with no options. */
module Json {

  /** A value held in the model or passed to a script. `VOther` stands for
      anything that is none of the JSON-like kinds (an error object, a closure,
      a native handle): it has no literal form. */
  datatype Value =
    | VString(s: string)
    | VBool(b: bool)
    | VInt(i: int)
    | VNull
    | VArray(items: seq<Value>)
    | VObject(members: seq<Member>)
    | VOther(kind: string)

  /** One key/value pair of a dictionary, in the order it is serialised. */
  datatype Member = Member(key: string, value: Value)

  /** The JSON dictionary threaded from step to step. */
  type Model = map<string, Value>

  /** `model[key] ?? NSNull()`: the value under `key`, or null when the key is missing. */
  function Lookup(model: Model, key: string): (r: Value)
    ensures key in model ==> r == model[key]
    ensures key !in model ==> r == VNull
  {
    if key in model then model[key] else VNull
  }

  /** True when every value inside `v` is a string, number, bool, null, array
      or dictionary, that is, when JSONSerialization can write it. */
  predicate Encodable(v: Value)
    decreases v, 1
  {
    match v
    case VOther(_) => false
    case VArray(items) => ItemsEncodable(items, 0)
    case VObject(ms) => MembersEncodable(ms, 0)
    case _ => true
  }

  predicate ItemsEncodable(items: seq<Value>, from: nat)
    decreases VArray(items), 0, |items| - from
  {
    from >= |items| || (Encodable(items[from]) && ItemsEncodable(items, from + 1))
  }

  predicate MembersEncodable(ms: seq<Member>, from: nat)
    decreases VObject(ms), 0, |ms| - from
  {
    from >= |ms| || (EncodableMember(ms, from) && MembersEncodable(ms, from + 1))
  }

  predicate EncodableMember(ms: seq<Member>, k: nat)
    requires k < |ms|
    decreases VObject(ms), 0, 0
  {
    assert ms[k].value < ms[k];
    Encodable(ms[k].value)
  }

  /** `JSONSerialization.isValidJSONObject`: the top level must be an array or
      a dictionary, and everything inside must be encodable. */
  predicate IsValidJsonObject(v: Value) {
    (v.VArray? || v.VObject?) && Encodable(v)
  }

  // ---- decimal text of integers ------------------------------------------

  function DigitChar(d: nat): (c: char)
    requires d < 10
    ensures '0' <= c <= '9'
  {
    ('0' as int + d) as char
  }

  predicate IsDigit(c: char) {
    '0' <= c <= '9'
  }

  /** Decimal digits of a natural number, most significant first. */
  function NatText(n: nat): (r: string)
    decreases n
  {
    if n < 10 then [DigitChar(n)] else NatText(n / 10) + [DigitChar(n % 10)]
  }

  /** `"\(i)"` for a Swift `Int`: an optional minus sign and the digits. */
  function IntText(i: int): string {
    if i < 0 then "-" + NatText(-i) else NatText(i)
  }

  // ---- string escaping ---------------------------------------------------

  function HexDigit(d: nat): (c: char)
    requires d < 16
  {
    if d < 10 then ('0' as int + d) as char else ('a' as int + d - 10) as char
  }

  /** How JSONSerialization writes one character inside a string literal:
      quote, backslash and slash are escaped, the control characters with a
      short form use it, the other control characters become `\u00xx`. */
  function EscapeChar(c: char): string {
    if c == '"' then "\\\""
    else if c == '\\' then "\\\\"
    else if c == '/' then "\\/"
    else if c as int == 0x08 then "\\b"
    else if c as int == 0x0C then "\\f"
    else if c == '\n' then "\\n"
    else if c == '\r' then "\\r"
    else if c == '\t' then "\\t"
    else if c as int < 0x20 then "\\u00" + [HexDigit(c as int / 16), HexDigit(c as int % 16)]
    else [c]
  }

  function Escape(s: string): string {
    if |s| == 0 then "" else EscapeChar(s[0]) + Escape(s[1..])
  }

  // ---- compact JSON text -------------------------------------------------

  /** The compact JSON text of an encodable value: no whitespace, members and
      items in order, separated by commas. */
  function Text(v: Value): string
    requires Encodable(v)
    decreases v, 1
  {
    match v
    case VString(s) => "\"" + Escape(s) + "\""
    case VBool(b) => if b then "true" else "false"
    case VInt(i) => IntText(i)
    case VNull => "null"
    case VArray(items) => "[" + ItemsText(items, 0) + "]"
    case VObject(ms) => "{" + MembersText(ms, 0) + "}"
  }

  /** The items `items[from..]`, comma-separated. */
  function ItemsText(items: seq<Value>, from: nat): string
    requires from <= |items| && ItemsEncodable(items, from)
    decreases VArray(items), 0, |items| - from
  {
    if from == |items| then ""
    else Text(items[from]) + (if from + 1 == |items| then "" else ",") + ItemsText(items, from + 1)
  }

  /** The members `ms[from..]` as `"key":value`, comma-separated. */
  function MembersText(ms: seq<Member>, from: nat): string
    requires from <= |ms| && MembersEncodable(ms, from)
    decreases VObject(ms), 0, |ms| - from
  {
    if from == |ms| then ""
    else MemberText(ms, from) + (if from + 1 == |ms| then "" else ",") + MembersText(ms, from + 1)
  }

  function MemberText(ms: seq<Member>, k: nat): string
    requires k < |ms| && EncodableMember(ms, k)
    decreases VObject(ms), 0, 0
  {
    assert ms[k].value < ms[k];
    "\"" + Escape(ms[k].key) + "\":" + Text(ms[k].value)
  }
}
