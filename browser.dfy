/** The browser wrapper: the two single-shot callback slots that WebKit's
    delegate events complete, and how the result of evaluating a script is
    turned into a success or a library error. Page loads, script evaluation
    and the delegate calls are inputs; what the wrapper hands to its callbacks
    is recorded in `deliveries`. */
module Browser {
  import opened Wrappers
  import opened Json
  import opened ScraperErrors
  import JG = JavaScriptGenerator

  const MessageHandlerName: string := "swiftScraperResponseHandler"
  const UrlErrorDomain: string := "NSURLErrorDomain"
  /** `NSURLErrorCancelled` */
  const UrlErrorCancelled: int := -999
  /** `WKError.errorDomain` */
  const WebKitErrorDomain: string := "WKErrorDomain"
  /** `WKError.Code.javaScriptExceptionOccurred.rawValue` */
  const JavaScriptExceptionOccurred: int := 4
  const JavaScriptExceptionMessageKey: string := "WKJavaScriptExceptionMessage"

  /** `NavigationResult` */
  type NavigationResult = Result<(), ScraperError>

  /** `ScriptResponseResult`: the script's response, which may be absent. */
  type ScriptResponseResult = Result<Option<Value>, ScraperError>

  /** What `evaluateJavaScript` hands back: a response, an error, or neither. */
  datatype EvaluationAnswer = EvaluationAnswer(response: Option<Value>, error: Option<NsError>)

  /** A navigation that was cancelled, which `didFail` ignores. */
  predicate IsCancellation(e: NsError) {
    e.domain == UrlErrorDomain && e.code == UrlErrorCancelled
  }

  /** An exception thrown by the evaluated JavaScript. */
  predicate IsJavaScriptException(e: NsError) {
    e.domain == WebKitErrorDomain && e.code == JavaScriptExceptionOccurred
  }

  /** The message WebKit attaches to a script exception, or the error's
      localised description when it attaches none. */
  function ExceptionMessage(e: NsError): (m: string)
    ensures JavaScriptExceptionMessageKey in e.userInfo && e.userInfo[JavaScriptExceptionMessageKey].VString? ==>
      m == e.userInfo[JavaScriptExceptionMessageKey].s
    ensures !(JavaScriptExceptionMessageKey in e.userInfo && e.userInfo[JavaScriptExceptionMessageKey].VString?) ==>
      m == e.localizedDescription
  {
    if JavaScriptExceptionMessageKey in e.userInfo && e.userInfo[JavaScriptExceptionMessageKey].VString? then
      e.userInfo[JavaScriptExceptionMessageKey].s
    else e.localizedDescription
  }

  /** The completion handler of `evaluateJavaScript` inside `runScript`. */
  function ClassifyEvaluation(answer: EvaluationAnswer): (r: ScriptResponseResult)
    ensures r.Success? <==> answer.error.None?
    ensures r.Success? ==> r.value == answer.response
    ensures r.Failure? ==> r.error.JavascriptError?
    ensures r.Failure? && IsJavaScriptException(answer.error.value) ==>
      r.error.errorMessage == ExceptionMessage(answer.error.value)
    ensures r.Failure? && !IsJavaScriptException(answer.error.value) ==>
      r.error.errorMessage == answer.error.value.localizedDescription
  {
    match answer.error
    case Some(e) =>
      if IsJavaScriptException(e) then Failure(JavascriptError(ExceptionMessage(e)))
      else Failure(JavascriptError(e.localizedDescription))
    case None => Success(answer.response)
  }

  /** `runScript`: a call that cannot be generated fails without being
      evaluated; otherwise the evaluation's answer is classified. */
  function ScriptResponse(moduleName: string, functionName: string, params: seq<Value>, answer: EvaluationAnswer): (r: ScriptResponseResult)
    ensures JG.GenerateScript(moduleName, functionName, params).Failure? ==> r == Failure(ParameterSerialization)
    ensures JG.GenerateScript(moduleName, functionName, params).Success? ==> r == ClassifyEvaluation(answer)
  {
    match JG.GenerateScript(moduleName, functionName, params)
    case Failure(_) => Failure(ParameterSerialization)
    case Success(_) => ClassifyEvaluation(answer)
  }

  /** A script succeeds exactly when every parameter can be written and the
      evaluation reports no error, and then it hands back the response; it
      fails only with a serialisation error or a JavaScript error. */
  lemma ScriptResponseCharacterised(moduleName: string, functionName: string, params: seq<Value>, answer: EvaluationAnswer)
    ensures var r := ScriptResponse(moduleName, functionName, params, answer);
      (r.Success? <==> (forall i :: 0 <= i < |params| ==> Encodable(params[i])) && answer.error.None?) &&
      (r.Success? ==> r.value == answer.response) &&
      (r.Failure? ==> r.error == ParameterSerialization || r.error.JavascriptError?)
  {
  }

  /** What the wrapper hands to a callback stored in one of its slots. */
  datatype Delivery =
    | Navigated(callback: nat, result: NavigationResult)
    | Responded(callback: nat, response: ScriptResponseResult)

  /** An evaluation the web view has not answered yet, with the completion
      that the closure of `runPageChangeScript` or `runAsyncScript` captured. */
  datatype PendingEvaluation =
    | PageChangeEvaluation(completion: nat)
    | AsyncEvaluation(completion: nat)

  /** The callback `id` has been handed a navigation result. */
  ghost predicate NavigationDelivered(ds: seq<Delivery>, id: nat) {
    exists i :: 0 <= i < |ds| && ds[i].Navigated? && ds[i].callback == id
  }

  /** No navigation callback has been handed two results. */
  ghost predicate NavigationDeliveredOnce(ds: seq<Delivery>) {
    forall i, j :: 0 <= i < j < |ds| && ds[i].Navigated? && ds[j].Navigated? ==> ds[i].callback != ds[j].callback
  }

  /** `Browser`: callbacks are named by numbers the caller supplies. Script
      evaluation is asynchronous: a page-change or asynchronous script waits
      in `pending` until the web view answers it, so its answer may come
      before or after the delegate events and script messages. */
  class Browser {
    const moduleName: string
    var navigationCallback: Option<nat>
    var asyncScriptCallback: Option<nat>
    /** The paths handed to the web view, in order. */
    var loaded: seq<string>
    /** The scripts handed to the web view for evaluation, in order. */
    var evaluated: seq<string>
    /** The evaluations of page-change and asynchronous scripts the web view
        has not answered yet. */
    var pending: seq<PendingEvaluation>
    var deliveries: seq<Delivery>
    /** The navigation callbacks stored so far. */
    ghost var issued: set<nat>

    /** A navigation callback in the slot has not had a result yet, and every
        navigation callback the browser knows of was stored by it. Whether
        each navigation callback hears only once is stated, method by method,
        as `NavigationDeliveredOnce` being kept. */
    ghost predicate Valid()
      reads this
    {
      (navigationCallback.Some? ==>
         navigationCallback.value in issued && !NavigationDelivered(deliveries, navigationCallback.value)) &&
      (forall i :: 0 <= i < |deliveries| && deliveries[i].Navigated? ==> deliveries[i].callback in issued) &&
      (forall i :: 0 <= i < |pending| && pending[i].PageChangeEvaluation? ==> pending[i].completion in issued)
    }

    constructor(moduleName: string)
      ensures Valid() && NavigationDeliveredOnce(deliveries)
      ensures this.moduleName == moduleName
      ensures navigationCallback.None? && asyncScriptCallback.None?
      ensures loaded == [] && evaluated == [] && pending == [] && deliveries == [] && issued == {}
    {
      this.moduleName := moduleName;
      navigationCallback := None;
      asyncScriptCallback := None;
      loaded := [];
      evaluated := [];
      pending := [];
      deliveries := [];
      issued := {};
    }

    /** `load(path:completion:)` stores the completion in the navigation slot. */
    method Load(path: string, completion: nat)
      requires Valid() && completion !in issued
      modifies this
      ensures Valid()
      ensures navigationCallback == Some(completion) && issued == old(issued) + {completion}
      ensures loaded == old(loaded) + [path]
      ensures asyncScriptCallback == old(asyncScriptCallback)
      ensures evaluated == old(evaluated) && pending == old(pending) && deliveries == old(deliveries)
    {
      navigationCallback := Some(completion);
      issued := issued + {completion};
      loaded := loaded + [path];
    }

    /** `callNavigationCompletion(result:)`: empties the slot, then hands the
        result to what it held; nothing happens on an empty slot. */
    method CallNavigationCompletion(result: NavigationResult)
      requires Valid()
      modifies this
      ensures Valid()
      ensures NavigationDeliveredOnce(old(deliveries)) ==> NavigationDeliveredOnce(deliveries)
      ensures navigationCallback.None?
      ensures old(navigationCallback).None? ==> deliveries == old(deliveries)
      ensures old(navigationCallback).Some? ==>
        deliveries == old(deliveries) + [Navigated(old(navigationCallback).value, result)]
      ensures asyncScriptCallback == old(asyncScriptCallback) && issued == old(issued)
      ensures loaded == old(loaded) && evaluated == old(evaluated) && pending == old(pending)
    {
      if navigationCallback.Some? {
        var completion := navigationCallback.value;
        navigationCallback := None;
        Deliver(Navigated(completion, result));
      }
    }

    /** Hands `d` to its callback. */
    method Deliver(d: Delivery)
      modifies this
      ensures deliveries == old(deliveries) + [d]
      ensures navigationCallback == old(navigationCallback) && asyncScriptCallback == old(asyncScriptCallback)
      ensures issued == old(issued) && loaded == old(loaded) && evaluated == old(evaluated) && pending == old(pending)
    {
      deliveries := deliveries + [d];
    }

    /** `webView(_:didFinish:)` */
    method DidFinish()
      requires Valid()
      modifies this
      ensures Valid()
      ensures NavigationDeliveredOnce(old(deliveries)) ==> NavigationDeliveredOnce(deliveries)
      ensures navigationCallback.None?
      ensures deliveries == old(deliveries) +
        (if old(navigationCallback).Some? then [Navigated(old(navigationCallback).value, Success(()))] else [])
      ensures asyncScriptCallback == old(asyncScriptCallback) && issued == old(issued)
      ensures loaded == old(loaded) && evaluated == old(evaluated) && pending == old(pending)
    {
      CallNavigationCompletion(Success(()));
    }

    /** `webView(_:didFailProvisionalNavigation:withError:)` */
    method DidFailProvisionalNavigation(error: NsError)
      requires Valid()
      modifies this
      ensures Valid()
      ensures NavigationDeliveredOnce(old(deliveries)) ==> NavigationDeliveredOnce(deliveries)
      ensures navigationCallback.None?
      ensures deliveries == old(deliveries) +
        (if old(navigationCallback).Some?
         then [Navigated(old(navigationCallback).value, Failure(NavigationFailed(Foreign(error))))]
         else [])
      ensures asyncScriptCallback == old(asyncScriptCallback) && issued == old(issued)
      ensures loaded == old(loaded) && evaluated == old(evaluated) && pending == old(pending)
    {
      CallNavigationCompletion(Failure(NavigationFailed(Foreign(error))));
    }

    /** `webView(_:didFail:withError:)`: a cancelled navigation is ignored and
        leaves the slot as it is. */
    method DidFail(error: NsError)
      requires Valid()
      modifies this
      ensures Valid()
      ensures NavigationDeliveredOnce(old(deliveries)) ==> NavigationDeliveredOnce(deliveries)
      ensures IsCancellation(error) ==>
        navigationCallback == old(navigationCallback) && deliveries == old(deliveries)
      ensures !IsCancellation(error) ==> navigationCallback.None?
      ensures !IsCancellation(error) ==> (deliveries == old(deliveries) +
        (if old(navigationCallback).Some?
         then [Navigated(old(navigationCallback).value, Failure(NavigationFailed(Foreign(error))))]
         else []))
      ensures asyncScriptCallback == old(asyncScriptCallback) && issued == old(issued)
      ensures loaded == old(loaded) && evaluated == old(evaluated) && pending == old(pending)
    {
      if IsCancellation(error) {
        return;
      }
      CallNavigationCompletion(Failure(NavigationFailed(Foreign(error))));
    }

    /** `userContentController(_:didReceive:)`: a message for the library's
        handler is handed to the asynchronous slot, which keeps its callback. */
    method DidReceiveMessage(name: string, body: Value)
      requires Valid()
      modifies this
      ensures Valid()
      ensures NavigationDeliveredOnce(old(deliveries)) ==> NavigationDeliveredOnce(deliveries)
      ensures deliveries == old(deliveries) +
        (if name == MessageHandlerName && asyncScriptCallback.Some?
         then [Responded(asyncScriptCallback.value, Success(Some(body)))]
         else [])
      ensures navigationCallback == old(navigationCallback) && asyncScriptCallback == old(asyncScriptCallback)
      ensures issued == old(issued) && loaded == old(loaded) && evaluated == old(evaluated) && pending == old(pending)
    {
      if name != MessageHandlerName {
        return;
      }
      if asyncScriptCallback.Some? {
        Deliver(Responded(asyncScriptCallback.value, Success(Some(body))));
      }
    }

    /** The `try?` generation at the head of `runScript`: a script that could
        be generated is handed to the web view. */
    method Evaluate(functionName: string, params: seq<Value>) returns (g: Result<string, ScraperError>)
      modifies this
      ensures g == JG.GenerateScript(moduleName, functionName, params)
      ensures evaluated == old(evaluated) + (if g.Success? then [g.value] else [])
      ensures navigationCallback == old(navigationCallback) && asyncScriptCallback == old(asyncScriptCallback)
      ensures issued == old(issued) && loaded == old(loaded) && deliveries == old(deliveries) && pending == old(pending)
    {
      g := JG.GenerateScript(moduleName, functionName, params);
      if g.Success? {
        evaluated := evaluated + [g.value];
      }
    }

    /** `runScript(functionName:params:completion:)`, with the web view's
        answer given: the generated script is evaluated only when it could be
        generated. Its completion hears nothing but that answer. */
    method RunScript(functionName: string, params: seq<Value>, answer: EvaluationAnswer) returns (r: ScriptResponseResult)
      modifies this
      ensures r == ScriptResponse(moduleName, functionName, params, answer)
      ensures var g := JG.GenerateScript(moduleName, functionName, params);
        evaluated == old(evaluated) + (if g.Success? then [g.value] else [])
      ensures navigationCallback == old(navigationCallback) && asyncScriptCallback == old(asyncScriptCallback)
      ensures issued == old(issued) && loaded == old(loaded) && deliveries == old(deliveries) && pending == old(pending)
    {
      var script := Evaluate(functionName, params);
      if script.Failure? {
        return Failure(ParameterSerialization);
      }
      r := ClassifyEvaluation(answer);
    }

    /** `runPageChangeScript`: the completion waits in the navigation slot. A
        script that cannot be generated hands it `parameterSerialization` at
        once and empties the slot; otherwise the evaluation waits for its
        answer, and the slot for the navigation event. */
    method RunPageChangeScript(functionName: string, params: seq<Value>, completion: nat)
      requires Valid() && completion !in issued
      modifies this
      ensures Valid()
      ensures NavigationDeliveredOnce(old(deliveries)) ==> NavigationDeliveredOnce(deliveries)
      ensures issued == old(issued) + {completion}
      ensures var g := JG.GenerateScript(moduleName, functionName, params);
        (g.Success? ==>
           navigationCallback == Some(completion) && deliveries == old(deliveries) &&
           evaluated == old(evaluated) + [g.value] && pending == old(pending) + [PageChangeEvaluation(completion)]) &&
        (g.Failure? ==>
           navigationCallback.None? && evaluated == old(evaluated) && pending == old(pending) &&
           deliveries == old(deliveries) + [Navigated(completion, Failure(ParameterSerialization))])
      ensures asyncScriptCallback == old(asyncScriptCallback) && loaded == old(loaded)
    {
      navigationCallback := Some(completion);
      issued := issued + {completion};
      var script := Evaluate(functionName, params);
      if script.Failure? {
        Deliver(Navigated(completion, Failure(ParameterSerialization)));
        navigationCallback := None;
        return;
      }
      pending := pending + [PageChangeEvaluation(completion)];
    }

    /** `runAsyncScript`: the completion waits in the asynchronous slot. A
        script that cannot be generated hands it `parameterSerialization` at
        once and empties the slot; otherwise the evaluation waits for its
        answer, and the slot for the script's message. */
    method RunAsyncScript(functionName: string, params: seq<Value>, completion: nat)
      requires Valid()
      modifies this
      ensures Valid()
      ensures NavigationDeliveredOnce(old(deliveries)) ==> NavigationDeliveredOnce(deliveries)
      ensures var g := JG.GenerateScript(moduleName, functionName, params);
        (g.Success? ==>
           asyncScriptCallback == Some(completion) && deliveries == old(deliveries) &&
           evaluated == old(evaluated) + [g.value] && pending == old(pending) + [AsyncEvaluation(completion)]) &&
        (g.Failure? ==>
           asyncScriptCallback.None? && evaluated == old(evaluated) && pending == old(pending) &&
           deliveries == old(deliveries) + [Responded(completion, Failure(ParameterSerialization))])
      ensures navigationCallback == old(navigationCallback) && issued == old(issued) && loaded == old(loaded)
    {
      asyncScriptCallback := Some(completion);
      var script := Evaluate(functionName, params);
      if script.Failure? {
        Deliver(Responded(completion, Failure(ParameterSerialization)));
        asyncScriptCallback := None;
        return;
      }
      pending := pending + [AsyncEvaluation(completion)];
    }

    /** Removes the `k`th pending evaluation. */
    method Answered(k: nat)
      requires Valid() && k < |pending|
      modifies this
      ensures Valid()
      ensures pending == old(pending[..k] + pending[k + 1..])
      ensures navigationCallback == old(navigationCallback) && asyncScriptCallback == old(asyncScriptCallback)
      ensures issued == old(issued) && loaded == old(loaded) && evaluated == old(evaluated) && deliveries == old(deliveries)
    {
      pending := pending[..k] + pending[k + 1..];
    }

    /** The web view answers the `k`th pending evaluation, and the closure of
        `runPageChangeScript` (lines 197-202) or `runAsyncScript` (lines
        208-213) runs: a success is dropped; a failure is handed to the
        captured completion and the slot is emptied, whatever the slot holds
        by then. A page-change completion that the navigation event has
        already called is therefore called a second time. */
    method EvaluationCompleted(k: nat, answer: EvaluationAnswer)
      requires Valid() && k < |pending|
      modifies this
      ensures Valid()
      ensures pending == old(pending[..k] + pending[k + 1..])
      ensures var r := ClassifyEvaluation(answer); var p := old(pending[k]);
        (r.Success? ==>
           deliveries == old(deliveries) && navigationCallback == old(navigationCallback) &&
           asyncScriptCallback == old(asyncScriptCallback)) &&
        (r.Failure? && p.PageChangeEvaluation? ==>
           deliveries == old(deliveries) + [Navigated(p.completion, Failure(r.error))] &&
           navigationCallback.None? && asyncScriptCallback == old(asyncScriptCallback)) &&
        (r.Failure? && p.AsyncEvaluation? ==>
           deliveries == old(deliveries) + [Responded(p.completion, r)] &&
           asyncScriptCallback.None? && navigationCallback == old(navigationCallback))
      ensures issued == old(issued) && loaded == old(loaded) && evaluated == old(evaluated)
    {
      var p := pending[k];
      Answered(k);
      var r := ClassifyEvaluation(answer);
      if r.Failure? {
        match p
        case PageChangeEvaluation(completion) =>
          Deliver(Navigated(completion, Failure(r.error)));
          navigationCallback := None;
        case AsyncEvaluation(completion) =>
          Deliver(Responded(completion, r));
          asyncScriptCallback := None;
      }
    }

    /** `EvaluationCompleted` as the one-shot navigation slot intends it: a
        failing page-change evaluation goes through the slot, so it reaches
        its completion only while the slot still holds it. Every navigation
        callback then hears exactly once. */
    method EvaluationCompletedOnce(k: nat, answer: EvaluationAnswer)
      requires Valid() && k < |pending|
      modifies this
      ensures Valid()
      ensures NavigationDeliveredOnce(old(deliveries)) ==> NavigationDeliveredOnce(deliveries)
      ensures pending == old(pending[..k] + pending[k + 1..])
      ensures var r := ClassifyEvaluation(answer); var p := old(pending[k]);
        (r.Success? ==>
           deliveries == old(deliveries) && navigationCallback == old(navigationCallback) &&
           asyncScriptCallback == old(asyncScriptCallback)) &&
        (r.Failure? && p.PageChangeEvaluation? && old(navigationCallback) == Some(p.completion) ==>
           deliveries == old(deliveries) + [Navigated(p.completion, Failure(r.error))] &&
           navigationCallback.None? && asyncScriptCallback == old(asyncScriptCallback)) &&
        (r.Failure? && p.PageChangeEvaluation? && old(navigationCallback) != Some(p.completion) ==>
           deliveries == old(deliveries) && navigationCallback == old(navigationCallback) &&
           asyncScriptCallback == old(asyncScriptCallback)) &&
        (r.Failure? && p.AsyncEvaluation? ==>
           deliveries == old(deliveries) + [Responded(p.completion, r)] &&
           asyncScriptCallback.None? && navigationCallback == old(navigationCallback))
      ensures issued == old(issued) && loaded == old(loaded) && evaluated == old(evaluated)
    {
      var p := pending[k];
      Answered(k);
      var r := ClassifyEvaluation(answer);
      if r.Failure? {
        match p
        case PageChangeEvaluation(completion) =>
          if navigationCallback == Some(completion) {
            CallNavigationCompletion(Failure(r.error));
          }
        case AsyncEvaluation(completion) =>
          Deliver(Responded(completion, r));
          asyncScriptCallback := None;
      }
    }
  }

  /** A page-change script whose page finishes loading before its evaluation
      fails: the one navigation completion is handed success and then the
      failure. */
  method PageChangeDeliveredTwice(moduleName: string, functionName: string, error: NsError) returns (ds: seq<Delivery>)
    ensures ds == [Navigated(0, Success(())),
                   Navigated(0, Failure(ClassifyEvaluation(EvaluationAnswer(None, Some(error))).error))]
    ensures !NavigationDeliveredOnce(ds)
  {
    var b := new Browser(moduleName);
    b.RunPageChangeScript(functionName, [], 0);
    b.DidFinish();
    b.EvaluationCompleted(0, EvaluationAnswer(None, Some(error)));
    ds := b.deliveries;
    assert ds[0].Navigated? && ds[1].Navigated? && ds[0].callback == ds[1].callback;
  }

  /** The same events with the one-shot completion: the navigation callback
      hears only the success. */
  method PageChangeDeliveredOnce(moduleName: string, functionName: string, error: NsError) returns (ds: seq<Delivery>)
    ensures ds == [Navigated(0, Success(()))]
    ensures NavigationDeliveredOnce(ds)
  {
    var b := new Browser(moduleName);
    b.RunPageChangeScript(functionName, [], 0);
    b.DidFinish();
    b.EvaluationCompletedOnce(0, EvaluationAnswer(None, Some(error)));
    ds := b.deliveries;
  }

  /** An asynchronous script that posts its message and then fails: its
      completion is handed the message's body and then the failure. */
  method AsyncSuccessThenFailure(moduleName: string, functionName: string, body: Value, error: NsError)
    returns (ds: seq<Delivery>)
    ensures |ds| == 2 && ds[0] == Responded(0, Success(Some(body)))
    ensures ds[1] == Responded(0, ClassifyEvaluation(EvaluationAnswer(None, Some(error))))
    ensures ds[1].response.Failure?
  {
    var b := new Browser(moduleName);
    b.RunAsyncScript(functionName, [], 0);
    b.DidReceiveMessage(MessageHandlerName, body);
    b.EvaluationCompleted(0, EvaluationAnswer(None, Some(error)));
    ds := b.deliveries;
  }
}
