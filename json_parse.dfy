/** A reader for the compact JSON text that `Json.Text` writes (RFC 8259
    without insignificant whitespace and without fractions or exponents), and
    the proof that reading the text back gives the value that was written.
    It is the reference against which the call generator's output is checked. */
module JsonParse {
  import opened Wrappers
  import opened Json

  /** What may follow a value's text without changing how it reads: anything
      but a digit (an integer is read greedily). */
  predicate Delimited(rest: string) {
    |rest| == 0 || !IsDigit(rest[0])
  }

  predicate StartsWith(s: string, prefix: string) {
    |prefix| <= |s| && s[..|prefix|] == prefix
  }

  // ---- integers ----------------------------------------------------------

  function DigitValue(c: char): nat
    requires IsDigit(c)
  {
    c as int - '0' as int
  }

  /** Length of the run of digits that `s` starts with. */
  function DigitRun(s: string): (k: nat)
    ensures k <= |s|
    ensures forall i :: 0 <= i < k ==> IsDigit(s[i])
    ensures k < |s| ==> !IsDigit(s[k])
  {
    if |s| == 0 || !IsDigit(s[0]) then 0 else 1 + DigitRun(s[1..])
  }

  /** The number a string of decimal digits denotes. */
  function DigitsValue(ds: string): nat
    requires forall i :: 0 <= i < |ds| ==> IsDigit(ds[i])
  {
    if |ds| == 0 then 0 else DigitsValue(ds[..|ds| - 1]) * 10 + DigitValue(ds[|ds| - 1])
  }

  /** A natural number: one or more digits, no leading zero unless it is `0`. */
  function ParseNat(s: string): (r: Option<(nat, string)>)
    ensures r.Some? ==> |r.value.1| < |s|
  {
    var k := DigitRun(s);
    if k == 0 || (k > 1 && s[0] == '0') then None
    else Some((DigitsValue(s[..k]), s[k..]))
  }

  function ParseInt(s: string): (r: Option<(int, string)>)
    ensures r.Some? ==> |r.value.1| < |s|
  {
    if |s| > 0 && s[0] == '-' then
      match ParseNat(s[1..])
      case None => None
      case Some((n, rest)) => var i: int := -(n as int); Some((i, rest))
    else
      match ParseNat(s)
      case None => None
      case Some((n, rest)) => Some((n, rest))
  }

  // ---- strings -----------------------------------------------------------

  function HexValue(c: char): Option<nat> {
    if '0' <= c <= '9' then Some(c as int - '0' as int)
    else if 'a' <= c <= 'f' then Some(c as int - 'a' as int + 10)
    else if 'A' <= c <= 'F' then Some(c as int - 'A' as int + 10)
    else None
  }

  function ParseHex4(t: string): Option<nat>
    requires |t| >= 4
  {
    match (HexValue(t[0]), HexValue(t[1]), HexValue(t[2]), HexValue(t[3]))
    case (Some(a), Some(b), Some(c), Some(d)) => Some(((a * 16 + b) * 16 + c) * 16 + d)
    case _ => None
  }

  /** The escape sequence that `t` starts with (what follows a backslash):
      the character it stands for and how many characters it takes. A `\u`
      escape naming a surrogate is refused (pairs are not read). */
  function ParseEscape(t: string): (r: Option<(char, nat)>)
    ensures r.Some? ==> 1 <= r.value.1 <= |t|
  {
    if |t| == 0 then None
    else if t[0] == '"' then Some(('"', 1))
    else if t[0] == '\\' then Some(('\\', 1))
    else if t[0] == '/' then Some(('/', 1))
    else if t[0] == 'b' then Some((0x08 as char, 1))
    else if t[0] == 'f' then Some((0x0C as char, 1))
    else if t[0] == 'n' then Some(('\n', 1))
    else if t[0] == 'r' then Some(('\r', 1))
    else if t[0] == 't' then Some(('\t', 1))
    else if t[0] == 'u' && |t| >= 5 then
      match ParseHex4(t[1..5])
      case None => None
      case Some(code) =>
        if code < 0xD800 || (0xE000 <= code < 0x10000) then Some((code as char, 5)) else None
    else None
  }

  /** The characters of a string literal after its opening quote, up to the
      closing quote: the decoded string and what follows the closing quote.
      A raw control character is refused. */
  function ParseStringBody(t: string): (r: Option<(string, string)>)
    ensures r.Some? ==> |r.value.1| < |t|
    decreases |t|
  {
    if |t| == 0 then None
    else if t[0] == '"' then Some(("", t[1..]))
    else if t[0] == '\\' then
      match ParseEscape(t[1..])
      case None => None
      case Some((c, k)) => Prepend(c, ParseStringBody(t[1 + k..]))
    else if t[0] as int < 0x20 then None
    else Prepend(t[0], ParseStringBody(t[1..]))
  }

  function Prepend(c: char, r: Option<(string, string)>): (r': Option<(string, string)>)
    ensures r'.Some? <==> r.Some?
    ensures r.Some? ==> r'.value == ([c] + r.value.0, r.value.1)
  {
    match r
    case None => None
    case Some((s, rest)) => Some(([c] + s, rest))
  }

  // ---- values ------------------------------------------------------------

  function ParseValue(s: string): (r: Option<(Value, string)>)
    ensures r.Some? ==> |r.value.1| < |s|
    decreases |s|, 1
  {
    if |s| == 0 then None
    else if s[0] == '"' then
      match ParseStringBody(s[1..])
      case None => None
      case Some((str, rest)) => Some((VString(str), rest))
    else if s[0] == '[' then
      if |s| > 1 && s[1] == ']' then Some((VArray([]), s[2..]))
      else
        match ParseElements(s[1..])
        case None => None
        case Some((items, rest)) => Some((VArray(items), rest))
    else if s[0] == '{' then
      if |s| > 1 && s[1] == '}' then Some((VObject([]), s[2..]))
      else
        match ParseMembers(s[1..])
        case None => None
        case Some((ms, rest)) => Some((VObject(ms), rest))
    else if StartsWith(s, "true") then Some((VBool(true), s[4..]))
    else if StartsWith(s, "false") then Some((VBool(false), s[5..]))
    else if StartsWith(s, "null") then Some((VNull, s[4..]))
    else
      match ParseInt(s)
      case None => None
      case Some((i, rest)) => Some((VInt(i), rest))
  }

  /** The items of a non-empty array after its `[`, through its `]`. */
  function ParseElements(s: string): (r: Option<(seq<Value>, string)>)
    ensures r.Some? ==> |r.value.1| < |s|
    decreases |s|, 2
  {
    match ParseValue(s)
    case None => None
    case Some((v, rest)) =>
      if |rest| == 0 then None
      else if rest[0] == ']' then Some(([v], rest[1..]))
      else if rest[0] == ',' then
        match ParseElements(rest[1..])
        case None => None
        case Some((vs, rest')) => Some(([v] + vs, rest'))
      else None
  }

  /** The members of a non-empty object after its `{`, through its `}`. */
  function ParseMembers(s: string): (r: Option<(seq<Member>, string)>)
    ensures r.Some? ==> |r.value.1| < |s|
    decreases |s|, 2
  {
    if |s| == 0 || s[0] != '"' then None
    else
      match ParseStringBody(s[1..])
      case None => None
      case Some((key, afterKey)) =>
        if |afterKey| == 0 || afterKey[0] != ':' then None
        else
          match ParseValue(afterKey[1..])
          case None => None
          case Some((v, rest)) =>
            if |rest| == 0 then None
            else if rest[0] == '}' then Some(([Member(key, v)], rest[1..]))
            else if rest[0] == ',' then
              match ParseMembers(rest[1..])
              case None => None
              case Some((ms, rest')) => Some(([Member(key, v)] + ms, rest'))
            else None
  }

  /** A comma-separated argument list that makes up the whole of `s`
      (the empty string is the empty list). */
  function ParseArgs(s: string): Option<seq<Value>> {
    if |s| == 0 then Some([]) else ParseArgList(s)
  }

  function ParseArgList(s: string): Option<seq<Value>>
    decreases |s|
  {
    match ParseValue(s)
    case None => None
    case Some((v, rest)) =>
      if |rest| == 0 then Some([v])
      else if rest[0] == ',' then
        match ParseArgList(rest[1..])
        case None => None
        case Some(vs) => Some([v] + vs)
      else None
  }

  // ---- round trip: integers ----------------------------------------------

  lemma {:induction false} NatTextShape(n: nat)
    ensures |NatText(n)| >= 1
    ensures forall i :: 0 <= i < |NatText(n)| ==> IsDigit(NatText(n)[i])
    ensures |NatText(n)| > 1 ==> NatText(n)[0] != '0'
    ensures DigitsValue(NatText(n)) == n
    decreases n
  {
    if n >= 10 {
      NatTextShape(n / 10);
      var t := NatText(n / 10);
      assert NatText(n) == t + [DigitChar(n % 10)];
      assert NatText(n)[..|NatText(n)| - 1] == t;
      if |t| == 1 {
        assert DigitsValue(t) == DigitValue(t[0]);
        assert t[0] != '0';
      }
    }
  }

  lemma DigitRunAppend(ds: string, rest: string)
    requires forall i :: 0 <= i < |ds| ==> IsDigit(ds[i])
    requires Delimited(rest)
    ensures DigitRun(ds + rest) == |ds|
    decreases |ds|
  {
    if |ds| > 0 {
      assert (ds + rest)[1..] == ds[1..] + rest;
      DigitRunAppend(ds[1..], rest);
    }
  }

  lemma NatRoundTrip(n: nat, rest: string)
    requires Delimited(rest)
    ensures ParseNat(NatText(n) + rest) == Some((n, rest))
  {
    var t := NatText(n);
    NatTextShape(n);
    DigitRunAppend(t, rest);
    assert (t + rest)[..|t|] == t;
    assert (t + rest)[|t|..] == rest;
  }

  lemma SignedText(n: string, rest: string)
    ensures ("-" + n + rest)[0] == '-' && ("-" + n + rest)[1..] == n + rest
  {
    assert "-" + n + rest == "-" + (n + rest);
  }

  lemma IntRoundTrip(i: int, rest: string)
    requires Delimited(rest)
    ensures ParseInt(IntText(i) + rest) == Some((i, rest))
  {
    if i < 0 {
      NatRoundTrip(-i, rest);
      SignedText(NatText(-i), rest);
    } else {
      var t := NatText(i);
      NatTextShape(i);
      NatRoundTrip(i, rest);
      assert (t + rest)[0] == t[0] && IsDigit(t[0]);
    }
  }

  // ---- round trip: strings -----------------------------------------------

  lemma HexRoundTrip(d: nat)
    requires d < 16
    ensures HexValue(HexDigit(d)) == Some(d)
  {
  }

  /** One step of `ParseStringBody` over an escape sequence. */
  lemma ParseEscapedStep(t: string, c: char, k: nat)
    requires |t| > 0 && t[0] == '\\' && ParseEscape(t[1..]) == Some((c, k))
    ensures ParseStringBody(t) == Prepend(c, ParseStringBody(t[1 + k..]))
  {
  }

  /** The characters with a two-character escape. */
  predicate HasShortEscape(c: char) {
    c == '"' || c == '\\' || c == '/' || c as int == 0x08 || c as int == 0x0C || c == '\n' || c == '\r' || c == '\t'
  }

  lemma ShortEscapeRoundTrip(c: char, tail: string)
    requires HasShortEscape(c)
    ensures ParseStringBody(EscapeChar(c) + tail) == Prepend(c, ParseStringBody(tail))
  {
    var t := EscapeChar(c) + tail;
    assert |EscapeChar(c)| == 2 && t[0] == '\\';
    assert ParseEscape(t[1..]) == Some((c, 1));
    ParseEscapedStep(t, c, 1);
    assert t[1 + 1..] == tail;
  }

  lemma ControlEscapeRoundTrip(c: char, tail: string)
    requires c as int < 0x20 && !HasShortEscape(c)
    ensures ParseStringBody(EscapeChar(c) + tail) == Prepend(c, ParseStringBody(tail))
  {
    var t := EscapeChar(c) + tail;
    var hi, lo := c as int / 16, c as int % 16;
    HexRoundTrip(hi);
    HexRoundTrip(lo);
    assert HexValue('0') == Some(0);
    assert t[0] == '\\';
    assert t[1..][1..5] == ['0', '0', HexDigit(hi), HexDigit(lo)];
    assert ParseHex4(t[1..][1..5]) == Some(c as int);
    assert ParseEscape(t[1..]) == Some((c, 5));
    ParseEscapedStep(t, c, 5);
    assert t[1 + 5..] == tail;
  }

  lemma PlainCharRoundTrip(c: char, tail: string)
    requires c as int >= 0x20 && !HasShortEscape(c)
    ensures ParseStringBody(EscapeChar(c) + tail) == Prepend(c, ParseStringBody(tail))
  {
    var t := EscapeChar(c) + tail;
    assert EscapeChar(c) == [c];
    assert t[0] == c && t[1..] == tail;
  }

  /** Reading one escaped character back gives the character, then the rest. */
  lemma EscapeCharRoundTrip(c: char, tail: string)
    ensures ParseStringBody(EscapeChar(c) + tail) == Prepend(c, ParseStringBody(tail))
  {
    if HasShortEscape(c) {
      ShortEscapeRoundTrip(c, tail);
    } else if c as int < 0x20 {
      ControlEscapeRoundTrip(c, tail);
    } else {
      PlainCharRoundTrip(c, tail);
    }
  }

  lemma {:induction false} StringRoundTrip(s: string, rest: string)
    ensures ParseStringBody(Escape(s) + "\"" + rest) == Some((s, rest))
    decreases |s|
  {
    if |s| == 0 {
      assert Escape(s) + "\"" + rest == "\"" + rest;
      assert ("\"" + rest)[1..] == rest;
    } else {
      var tail := Escape(s[1..]) + "\"" + rest;
      assert Escape(s) + "\"" + rest == EscapeChar(s[0]) + tail;
      EscapeCharRoundTrip(s[0], tail);
      StringRoundTrip(s[1..], rest);
      assert [s[0]] + s[1..] == s;
    }
  }

  // ---- round trip: values ------------------------------------------------

  /** A suffix of a list is its first element followed by the next suffix. */
  lemma ConsSlice<T>(s: seq<T>, i: nat)
    requires i < |s|
    ensures s[i..] == [s[i]] + s[i + 1..]
    ensures i + 1 == |s| ==> s[i..] == [s[i]]
  {
  }

  /** No value's text starts with a closing bracket or brace. */
  lemma TextStart(v: Value)
    requires Encodable(v)
    ensures |Text(v)| > 0 && Text(v)[0] != ']' && Text(v)[0] != '}'
  {
    if v.VInt? {
      NatTextShape(if v.i < 0 then -v.i else v.i);
    }
  }

  lemma StringValueRoundTrip(str: string, rest: string)
    ensures ParseValue(Text(VString(str)) + rest) == Some((VString(str), rest))
  {
    var t := Text(VString(str)) + rest;
    assert t[1..] == Escape(str) + "\"" + rest;
    StringRoundTrip(str, rest);
  }

  lemma BoolRoundTrip(b: bool, rest: string)
    ensures ParseValue(Text(VBool(b)) + rest) == Some((VBool(b), rest))
  {
    var t := Text(VBool(b)) + rest;
    if b {
      assert t[..4] == "true";
      assert t[4..] == rest;
    } else {
      assert t[3] == 's';
      assert !StartsWith(t, "true");
      assert t[..5] == "false";
      assert t[5..] == rest;
    }
  }

  lemma NullRoundTrip(rest: string)
    ensures ParseValue(Text(VNull) + rest) == Some((VNull, rest))
  {
    var t := Text(VNull) + rest;
    assert t[0] == 'n';
    NotStartsWith(t, "true");
    NotStartsWith(t, "false");
    assert t[..4] == "null";
    assert t[4..] == rest;
  }

  lemma NotStartsWith(s: string, p: string)
    requires |s| > 0 && |p| > 0 && s[0] != p[0]
    ensures !StartsWith(s, p)
  {
    if |p| <= |s| { assert s[..|p|][0] == s[0]; }
  }

  /** A text that starts with a minus sign or a digit reads as an integer. */
  lemma ParseValueOfNumber(s: string)
    requires |s| > 0 && (s[0] == '-' || IsDigit(s[0]))
    ensures ParseInt(s).Some? ==>
      ParseValue(s) == Some((VInt(ParseInt(s).value.0), ParseInt(s).value.1))
  {
    assert s[0] != '"' && s[0] != '[' && s[0] != '{';
    assert !StartsWith(s, "true") by { NotStartsWith(s, "true"); }
    assert !StartsWith(s, "false") by { NotStartsWith(s, "false"); }
    assert !StartsWith(s, "null") by { NotStartsWith(s, "null"); }
  }

  lemma IntValueRoundTrip(i: int, rest: string)
    requires Delimited(rest)
    ensures ParseValue(Text(VInt(i)) + rest) == Some((VInt(i), rest))
  {
    var t := IntText(i) + rest;
    NatTextShape(if i < 0 then -i else i);
    IntRoundTrip(i, rest);
    assert t[0] == IntText(i)[0];
    ParseValueOfNumber(t);
  }

  lemma {:induction false} ValueRoundTrip(v: Value, rest: string)
    requires Encodable(v) && Delimited(rest)
    ensures ParseValue(Text(v) + rest) == Some((v, rest))
    decreases v, 1
  {
    match v
    case VArray(items) => ArrayRoundTrip(items, rest);
    case VObject(ms) => ObjectRoundTrip(ms, rest);
    case VString(str) => StringValueRoundTrip(str, rest);
    case VBool(b) => BoolRoundTrip(b, rest);
    case VNull => NullRoundTrip(rest);
    case VInt(i) => IntValueRoundTrip(i, rest);
  }

  lemma {:induction false} ArrayRoundTrip(items: seq<Value>, rest: string)
    requires ItemsEncodable(items, 0)
    ensures Encodable(VArray(items))
    ensures ParseValue(Text(VArray(items)) + rest) == Some((VArray(items), rest))
    decreases VArray(items), 0, |items| + 1
  {
    var t := Text(VArray(items)) + rest;
    if |items| == 0 {
      assert ItemsText(items, 0) == "";
      assert t == "[]" + rest;
      assert t[2..] == rest;
    } else {
      TextStart(items[0]);
      assert Text(items[0])[0] == ItemsText(items, 0)[0];
      assert t[1..] == ItemsText(items, 0) + "]" + rest;
      ElementsRoundTrip(items, 0, rest);
      assert items[0..] == items;
    }
  }

  lemma {:induction false} ObjectRoundTrip(ms: seq<Member>, rest: string)
    requires MembersEncodable(ms, 0)
    ensures Encodable(VObject(ms))
    ensures ParseValue(Text(VObject(ms)) + rest) == Some((VObject(ms), rest))
    decreases VObject(ms), 0, |ms| + 1
  {
    var t := Text(VObject(ms)) + rest;
    if |ms| == 0 {
      assert MembersText(ms, 0) == "";
      assert t == "{}" + rest;
      assert t[2..] == rest;
    } else {
      var sep := if 1 == |ms| then "" else ",";
      assert MembersText(ms, 0) == MemberText(ms, 0) + sep + MembersText(ms, 1);
      assert MemberText(ms, 0)[0] == '"';
      assert t[1..] == MembersText(ms, 0) + "}" + rest;
      MembersRoundTrip(ms, 0, rest);
      assert ms[0..] == ms;
    }
  }

  lemma {:induction false} ElementsRoundTrip(items: seq<Value>, from: nat, rest: string)
    requires from < |items| && ItemsEncodable(items, from)
    ensures ParseElements(ItemsText(items, from) + "]" + rest) == Some((items[from..], rest))
    decreases VArray(items), 0, |items| - from
  {
    var x := items[from];
    if from + 1 == |items| {
      assert ItemsText(items, from) + "]" + rest == Text(x) + ("]" + rest);
      ValueRoundTrip(x, "]" + rest);
      ConsSlice(items, from);
    } else {
      var after := ItemsText(items, from + 1) + "]" + rest;
      assert ItemsText(items, from) + "]" + rest == Text(x) + ("," + after);
      ValueRoundTrip(x, "," + after);
      assert ("," + after)[1..] == after;
      ElementsRoundTrip(items, from + 1, rest);
      ConsSlice(items, from);
    }
  }

  /** Where the pieces of a member's text lie: the opening quote, the key's
      escaped text and closing quote, then the colon and the value's text. */
  lemma MemberTextParts(e: string, x: string, tail: string)
    ensures var s := "\"" + e + "\":" + x + tail;
      var afterKey := ":" + (x + tail);
      s[0] == '"' && s[1..] == e + "\"" + afterKey && s[|e| + 2..] == afterKey &&
      afterKey[0] == ':' && afterKey[1..] == x + tail
  {
    var s := "\"" + e + "\":" + x + tail;
    var afterKey := ":" + (x + tail);
    assert s == "\"" + (e + "\"" + afterKey);
  }

  /** Reading a member's text: the quoted key, then the colon, then the value. */
  lemma {:induction false} MemberRoundTrip(ms: seq<Member>, k: nat, tail: string)
    requires k < |ms| && EncodableMember(ms, k) && |tail| > 0 && (tail[0] == '}' || tail[0] == ',')
    ensures var s := MemberText(ms, k) + tail;
      var afterKey := s[|Escape(ms[k].key)| + 2..];
      s[0] == '"' &&
      ParseStringBody(s[1..]) == Some((ms[k].key, afterKey)) &&
      |afterKey| > 0 && afterKey[0] == ':' &&
      ParseValue(afterKey[1..]) == Some((ms[k].value, tail))
    decreases VObject(ms), 0, 0
  {
    var m := ms[k];
    assert m.value < m;
    var e := Escape(m.key);
    var afterKey := ":" + (Text(m.value) + tail);
    MemberTextParts(e, Text(m.value), tail);
    StringRoundTrip(m.key, afterKey);
    ValueRoundTrip(m.value, tail);
  }

  /** One step of `ParseMembers` once the member at the front has been read. */
  lemma ParseMembersStep(s: string, m: Member, afterKey: string, tail: string)
    requires |s| > 0 && s[0] == '"' && ParseStringBody(s[1..]) == Some((m.key, afterKey))
    requires |afterKey| > 0 && afterKey[0] == ':' && ParseValue(afterKey[1..]) == Some((m.value, tail))
    requires |tail| > 0
    ensures tail[0] == '}' ==> ParseMembers(s) == Some(([m], tail[1..]))
    ensures tail[0] == ',' ==> (ParseMembers(s) ==
      match ParseMembers(tail[1..])
      case None => None
      case Some((ms, rest')) => Some(([m] + ms, rest')))
  {
  }

  /** What follows a member's text inside an object's text: the closing brace
      after the last member, a comma and the next members otherwise. */
  function MemberTail(ms: seq<Member>, from: nat, rest: string): (t: string)
    requires from < |ms| && MembersEncodable(ms, from)
    ensures |t| > 0 && (t[0] == '}' || t[0] == ',')
    ensures from + 1 == |ms| ==> t[0] == '}' && t[1..] == rest
    ensures from + 1 < |ms| ==> t[0] == ',' && t[1..] == MembersText(ms, from + 1) + "}" + rest
  {
    if from + 1 == |ms| then "}" + rest else "," + (MembersText(ms, from + 1) + "}" + rest)
  }

  lemma MembersTextSplit(ms: seq<Member>, from: nat, rest: string)
    requires from < |ms| && MembersEncodable(ms, from)
    ensures MembersText(ms, from) + "}" + rest == MemberText(ms, from) + MemberTail(ms, from, rest)
  {
    if from + 1 == |ms| {
      assert MembersText(ms, from + 1) == "";
    }
  }

  lemma {:induction false} MembersRoundTrip(ms: seq<Member>, from: nat, rest: string)
    requires from < |ms| && MembersEncodable(ms, from)
    ensures ParseMembers(MembersText(ms, from) + "}" + rest) == Some((ms[from..], rest))
    decreases VObject(ms), 0, |ms| - from
  {
    var m := ms[from];
    var tail := MemberTail(ms, from, rest);
    var s := MembersText(ms, from) + "}" + rest;
    MembersTextSplit(ms, from, rest);
    MemberRoundTrip(ms, from, tail);
    ParseMembersStep(s, m, s[|Escape(m.key)| + 2..], tail);
    if from + 1 == |ms| {
      ConsSlice(ms, from);
    } else {
      MembersRoundTrip(ms, from + 1, rest);
      ConsSlice(ms, from);
    }
  }

  /** One step of `ParseArgList` once the value at the front has been read. */
  lemma ParseArgListStep(s: string, v: Value, rest: string)
    requires ParseValue(s) == Some((v, rest))
    ensures |rest| == 0 ==> ParseArgList(s) == Some([v])
    ensures |rest| > 0 && rest[0] == ',' ==> (ParseArgList(s) ==
      match ParseArgList(rest[1..])
      case None => None
      case Some(vs) => Some([v] + vs))
  {
  }

  /** A comma-separated list of value texts reads back as the list of values. */
  lemma {:induction false} ArgsRoundTrip(items: seq<Value>, from: nat)
    requires from < |items| && ItemsEncodable(items, from)
    ensures ParseArgList(ItemsText(items, from)) == Some(items[from..])
    decreases |items| - from
  {
    var x := items[from];
    var s := ItemsText(items, from);
    if from + 1 == |items| {
      assert s == Text(x) + "";
      ValueRoundTrip(x, "");
      ParseArgListStep(s, x, "");
      ConsSlice(items, from);
    } else {
      var after := ItemsText(items, from + 1);
      var rest := "," + after;
      assert s == Text(x) + rest;
      ValueRoundTrip(x, rest);
      ParseArgListStep(s, x, rest);
      assert rest[0] == ',' && rest[1..] == after;
      ArgsRoundTrip(items, from + 1);
      ConsSlice(items, from);
    }
  }

  /** The texts of any encodable values, joined by commas, read back as exactly
      those values, in order; no values give the empty text. */
  lemma ArgumentSectionRoundTrip(items: seq<Value>)
    requires ItemsEncodable(items, 0)
    ensures ParseArgs(ItemsText(items, 0)) == Some(items)
  {
    if |items| > 0 {
      TextStart(items[0]);
      ArgsRoundTrip(items, 0);
      assert items[0..] == items;
    }
  }
}
