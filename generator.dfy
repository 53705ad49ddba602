/** The call generator: turns a module name, a function name and a list of
    parameters into the JavaScript text `Module.fn(arg1,arg2,...)`, failing as
    a whole when some parameter cannot be written. */
module JavaScriptGenerator {
  import opened Wrappers
  import opened Json
  import opened JsonParse
  import opened ScraperErrors

  /** `Module.fn(args)` */
  function CallText(moduleName: string, functionName: string, args: string): string {
    moduleName + "." + functionName + "(" + args + ")"
  }

  /** `stringify(param:)`: tried in order string, bool, number, null, JSON
      array or dictionary; a string is wrapped in quotes with no escaping. */
  function Stringify(v: Value): (r: Result<string, ScraperError>)
    ensures r.Success? <==> Encodable(v)
    ensures r.Failure? ==> r.error == ParameterSerialization
    ensures v.VString? ==> r == Success("\"" + v.s + "\"")
  {
    if v.VString? then Success("\"" + v.s + "\"")
    else if v.VBool? then Success(if v.b then "true" else "false")
    else if v.VInt? then Success(IntText(v.i))
    else if v.VNull? then Success("null")
    else if IsValidJsonObject(v) then Success(Text(v))
    else Failure(ParameterSerialization)
  }

  /** `try params.map { try stringify(param: $0) }` */
  function StringifyAll(ps: seq<Value>): (r: Result<seq<string>, ScraperError>)
    ensures r.Success? <==> forall i :: 0 <= i < |ps| ==> Encodable(ps[i])
    ensures r.Success? ==> |r.value| == |ps| && forall i :: 0 <= i < |ps| ==> r.value[i] == Stringify(ps[i]).value
    ensures r.Failure? ==> r.error == ParameterSerialization
  {
    if |ps| == 0 then Success([])
    else
      match Stringify(ps[0])
      case Failure(e) => Failure(e)
      case Success(a) =>
        match StringifyAll(ps[1..])
        case Failure(e) =>
          assert forall i :: 1 <= i < |ps| ==> ps[i] == ps[1..][i - 1];
          Failure(e)
        case Success(rest) =>
          assert forall i :: 1 <= i < |ps| ==> ps[i] == ps[1..][i - 1];
          Success([a] + rest)
  }

  /** `joined(separator:)`: the parts in order with `sep` between neighbours. */
  function Join(parts: seq<string>, sep: string): string {
    if |parts| == 0 then ""
    else if |parts| == 1 then parts[0]
    else parts[0] + sep + Join(parts[1..], sep)
  }

  /** `generateScript(moduleName:functionName:params:)`, with the throw as a
      `Failure`. */
  function GenerateScript(moduleName: string, functionName: string, params: seq<Value>): (r: Result<string, ScraperError>)
    ensures |params| == 0 ==> r == Success(CallText(moduleName, functionName, ""))
    ensures r.Success? <==> forall i :: 0 <= i < |params| ==> Encodable(params[i])
    ensures r.Failure? ==> r.error == ParameterSerialization
  {
    if |params| == 0 then Success(CallText(moduleName, functionName, ""))
    else
      match StringifyAll(params)
      case Failure(e) => Failure(e)
      case Success(args) => Success(CallText(moduleName, functionName, Join(args, ",")))
  }

  // ---- what the generated text reads back as -----------------------------

  /** A string that can be put between quotes as it is and still be read back:
      no quote, no backslash, no control character. */
  predicate LiteralSafe(s: string) {
    forall i :: 0 <= i < |s| ==> s[i] != '"' && s[i] != '\\' && s[i] as int >= 0x20
  }

  /** A parameter whose text reads back as itself: an encodable value whose
      top-level string, if it is one, is literal-safe. */
  predicate ArgumentSafe(v: Value) {
    Encodable(v) && (v.VString? ==> LiteralSafe(v.s))
  }

  lemma {:induction false} RawStringRoundTrip(s: string, rest: string)
    requires LiteralSafe(s)
    ensures ParseStringBody(s + "\"" + rest) == Some((s, rest))
    decreases |s|
  {
    var t := s + "\"" + rest;
    if |s| == 0 {
      assert t == "\"" + rest;
      assert t[1..] == rest;
    } else {
      assert t[0] == s[0];
      assert t[1..] == s[1..] + "\"" + rest;
      RawStringRoundTrip(s[1..], rest);
      assert [s[0]] + s[1..] == s;
    }
  }

  /** Every parameter but a string is written as its JSON text. */
  lemma StringifyIsJsonText(v: Value)
    requires Encodable(v) && !v.VString?
    ensures Stringify(v) == Success(Text(v))
  {
  }

  /** One parameter's text, followed by anything that does not extend it,
      reads back as the parameter. */
  lemma ArgumentRoundTrip(v: Value, rest: string)
    requires ArgumentSafe(v) && Delimited(rest)
    ensures ParseValue(Stringify(v).value + rest) == Some((v, rest))
  {
    if v.VString? {
      var t := Stringify(v).value + rest;
      assert t[1..] == v.s + "\"" + rest;
      RawStringRoundTrip(v.s, rest);
    } else {
      StringifyIsJsonText(v);
      ValueRoundTrip(v, rest);
    }
  }

  lemma {:induction false} JoinedArgumentsRoundTrip(ps: seq<Value>, parts: seq<string>)
    requires |parts| == |ps| > 0
    requires forall i :: 0 <= i < |ps| ==> ArgumentSafe(ps[i]) && parts[i] == Stringify(ps[i]).value
    ensures ParseArgList(Join(parts, ",")) == Some(ps)
    decreases |ps|
  {
    if |ps| == 1 {
      assert Join(parts, ",") == parts[0] + "";
      ArgumentRoundTrip(ps[0], "");
      assert ps == [ps[0]];
    } else {
      var after := Join(parts[1..], ",");
      assert Join(parts, ",") == parts[0] + ("," + after);
      ArgumentRoundTrip(ps[0], "," + after);
      assert ("," + after)[1..] == after;
      JoinedArgumentsRoundTrip(ps[1..], parts[1..]);
      assert [ps[0]] + ps[1..] == ps;
    }
  }

  /** The generated call starts with `Module.fn(`, ends with `)`, and what lies
      between reads back as exactly the parameters, in order. */
  lemma CallRoundTrip(moduleName: string, functionName: string, params: seq<Value>)
    requires forall i :: 0 <= i < |params| ==> ArgumentSafe(params[i])
    ensures var r := GenerateScript(moduleName, functionName, params);
      var pre := moduleName + "." + functionName + "(";
      r.Success? && |pre| < |r.value| && r.value[..|pre|] == pre && r.value[|r.value| - 1] == ')' &&
      ParseArgs(r.value[|pre|..|r.value| - 1]) == Some(params)
  {
    var pre := moduleName + "." + functionName + "(";
    var r := GenerateScript(moduleName, functionName, params);
    var args := if |params| == 0 then "" else Join(StringifyAll(params).value, ",");
    assert r.value == pre + args + ")";
    assert r.value[..|pre|] == pre;
    assert r.value[|pre|..|r.value| - 1] == args;
    if |params| > 0 {
      JoinedArgumentsRoundTrip(params, StringifyAll(params).value);
    }
  }

  /** A string parameter holding a quote is not escaped, so the argument text no
      longer reads back as that one string. */
  lemma QuoteInStringBreaksArgument()
    ensures GenerateScript("M", "f", [VString("a\"b")]) == Success("M.f(\"a\"b\")")
    ensures ParseArgs("\"a\"b\"") == None
  {
    var arg := "\"a\"b\"";
    var quoted := "\"" + "a\"b" + "\"";
    assert |quoted| == 5 && quoted[0] == '"' && quoted[1] == 'a' && quoted[2] == '"' && quoted[3] == 'b' && quoted[4] == '"';
    assert quoted == arg;
    assert Stringify(VString("a\"b")) == Success(arg);
    var ps := [VString("a\"b")];
    assert ps[1..] == [];
    assert StringifyAll(ps[1..]) == Success([]);
    assert [arg] + [] == [arg];
    assert StringifyAll(ps) == Success([arg]);
    assert Join([arg], ",") == arg;
    assert CallText("M", "f", arg) == "M.f(\"a\"b\")";
    assert "\"a\"b\""[1..] == "a\"b\"";
    assert "a\"b\""[1..] == "\"b\"";
    assert "\"b\""[1..] == "b\"";
    assert ParseStringBody("\"b\"") == Some(("", "b\""));
    assert ['a'] + "" == "a";
    assert ParseStringBody("a\"b\"") == Prepend('a', ParseStringBody("\"b\""));
    assert ParseStringBody("a\"b\"") == Some(("a", "b\""));
    assert ParseValue("\"a\"b\"") == Some((VString("a"), "b\""));
  }
}
