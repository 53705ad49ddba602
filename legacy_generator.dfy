/** The older call generator, which returns an optional text instead of
    throwing: it drops the parameters it cannot write and then compares
    counts, and it has no branch for null. */
module LegacyJavaScriptGenerator {
  import opened Wrappers
  import opened Json
  import JG = JavaScriptGenerator

  /** `stringify(param:)`: string, bool, number, then JSON array or
      dictionary; anything else, null included, gives nothing. */
  function Stringify(v: Value): (r: Option<string>)
    ensures r.Some? <==> Encodable(v) && !v.VNull?
  {
    if v.VString? then Some("\"" + v.s + "\"")
    else if v.VBool? then Some(if v.b then "true" else "false")
    else if v.VInt? then Some(IntText(v.i))
    else if IsValidJsonObject(v) then Some(Text(v))
    else None
  }

  /** `params.flatMap { stringify(param: $0) }`: the texts of the parameters
      that have one, in order. */
  function CompactMap(ps: seq<Value>): (r: seq<string>)
    ensures |r| <= |ps|
    ensures |r| == |ps| <==> forall i :: 0 <= i < |ps| ==> Stringify(ps[i]).Some?
    ensures |r| == |ps| ==> forall i :: 0 <= i < |ps| ==> r[i] == Stringify(ps[i]).value
  {
    if |ps| == 0 then []
    else
      var rest := CompactMap(ps[1..]);
      assert forall i :: 1 <= i < |ps| ==> ps[i] == ps[1..][i - 1];
      match Stringify(ps[0])
      case None => rest
      case Some(a) => [a] + rest
  }

  /** `generateScript(moduleName:functionName:params:)` of the older API. */
  function GenerateScript(moduleName: string, functionName: string, params: seq<Value>): (r: Option<string>)
    ensures |params| == 0 ==> r == Some(JG.CallText(moduleName, functionName, ""))
    ensures r.None? <==> exists i :: 0 <= i < |params| && Stringify(params[i]).None?
  {
    if |params| == 0 then Some(JG.CallText(moduleName, functionName, ""))
    else
      var args := CompactMap(params);
      if |args| != |params| then None
      else Some(JG.CallText(moduleName, functionName, Join(args)))
  }

  function Join(args: seq<string>): string {
    JG.Join(args, ",")
  }

  /** The two generators write every parameter but null the same way. */
  lemma StringifyAgrees(v: Value)
    requires !v.VNull?
    ensures Stringify(v).Some? <==> JG.Stringify(v).Success?
    ensures Stringify(v).Some? ==> Stringify(v).value == JG.Stringify(v).value
  {
  }

  /** Without a null parameter, the older generator produces the same text as
      the newer one, and nothing exactly where the newer one throws. */
  lemma GeneratorsAgreeWithoutNull(moduleName: string, functionName: string, params: seq<Value>)
    requires forall i :: 0 <= i < |params| ==> !params[i].VNull?
    ensures GenerateScript(moduleName, functionName, params).Some? <==>
      JG.GenerateScript(moduleName, functionName, params).Success?
    ensures GenerateScript(moduleName, functionName, params).Some? ==>
      GenerateScript(moduleName, functionName, params).value == JG.GenerateScript(moduleName, functionName, params).value
  {
    forall i | 0 <= i < |params| {
      StringifyAgrees(params[i]);
    }
    if |params| > 0 && GenerateScript(moduleName, functionName, params).Some? {
      var args := CompactMap(params);
      var args' := JG.StringifyAll(params).value;
      assert |args| == |args'|;
      assert forall i :: 0 <= i < |args| ==> args[i] == args'[i];
      assert args == args';
    }
  }

  /** A null parameter: the newer generator writes `null`, the older one gives
      nothing. */
  lemma NullParameterDiffers(moduleName: string, functionName: string)
    ensures GenerateScript(moduleName, functionName, [VNull]).None?
    ensures JG.GenerateScript(moduleName, functionName, [VNull]) == Success(JG.CallText(moduleName, functionName, "null"))
  {
    var ps := [VNull];
    assert Stringify(ps[0]).None?;
    assert ps[1..] == [];
    assert JG.StringifyAll(ps[1..]) == Success([]);
    assert JG.Stringify(ps[0]) == Success("null");
    assert ["null"] + [] == ["null"];
    assert JG.StringifyAll(ps) == Success(["null"]);
    assert JG.Join(["null"], ",") == "null";
  }
}
