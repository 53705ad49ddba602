/** The step kinds and what each one does when run: which browser calls it
    makes, and what it reports to the runner, given the model it is run with
    and what the browser answers. */
module Steps {
  import opened Wrappers
  import opened Json
  import opened ScraperErrors
  import SC = StepCompletion
  import F = StepFlow
  import B = Browser

  /** A request a step makes of the browser. */
  datatype BrowserCall =
    | LoadPage(path: string)
    | RunScript(functionName: string, params: seq<Value>)
    | RunPageChangeScript(functionName: string, params: seq<Value>)
    | RunAsyncScript(functionName: string, params: seq<Value>)

  /** A step's run: the browser calls it made, in order, and its report. */
  datatype StepRun = StepRun(calls: seq<BrowserCall>, outcome: SC.StepCompletionResult)

  /** `ScriptStepHandler`: the script's response and a copy of the model in,
      the instruction and the edited copy out. */
  type ScriptHandler = (Option<Value>, Model) -> (F.StepFlowResult, Model)

  /** `ProcessStepHandler` */
  type ProcessHandler = Model -> (F.StepFlowResult, Model)

  /** Which browser entry point a script step uses. */
  datatype Channel = Synchronous | Asynchronous

  /** The configurations of the step kinds. */
  datatype Step =
    | OpenPage(path: string, assertionName: Option<string>)
    | PageChange(functionName: string, params: seq<Value>, paramsKeys: seq<string>, assertionName: Option<string>)
    | Script(functionName: string, params: seq<Value>, paramsKeys: seq<string>, handler: ScriptHandler, channel: Channel)
    | Process(process: ProcessHandler)

  /** The only response that passes a navigation assertion. */
  const AssertionPassed: B.ScriptResponseResult := Success(Some(VBool(true)))

  // ---- parameters --------------------------------------------------------

  /** `paramsKeys.map { model[$0] ?? NSNull() }` */
  function LookupAll(keys: seq<string>, model: Model): (r: seq<Value>)
    ensures |r| == |keys|
    ensures forall i :: 0 <= i < |keys| ==> r[i] == Lookup(model, keys[i])
  {
    if |keys| == 0 then []
    else [Lookup(model, keys[0])] + LookupAll(keys[1..], model)
  }

  /** The parameters a script step passes: the fixed ones when it names no
      keys, otherwise the model's values under the keys, null where missing. */
  function ResolveParams(params: seq<Value>, paramsKeys: seq<string>, model: Model): (r: seq<Value>)
    ensures |paramsKeys| == 0 ==> r == params
    ensures |paramsKeys| > 0 ==> |r| == |paramsKeys|
    ensures |paramsKeys| > 0 ==> forall i :: 0 <= i < |paramsKeys| ==> r[i] == Lookup(model, paramsKeys[i])
  {
    if |paramsKeys| == 0 then params else LookupAll(paramsKeys, model)
  }

  // ---- navigation steps --------------------------------------------------

  /** `assertNavigation(with:model:completion:)`: with no assertion the step
      proceeds; otherwise the assertion script runs with no parameters and only
      a `true` response proceeds, anything else (false, another value, no
      value, a script error) is unexpected content. */
  function AssertNavigation(assertionName: Option<string>, model: Model, response: B.ScriptResponseResult): (r: StepRun)
    ensures r.outcome.model == model
    ensures r.outcome.Proceed? <==> assertionName.None? || response == AssertionPassed
    ensures !r.outcome.Proceed? ==> r.outcome == SC.Failure(Scraper(ContentUnexpected), model)
    ensures assertionName.None? ==> r.calls == []
    ensures assertionName.Some? ==> r.calls == [RunScript(assertionName.value, [])]
  {
    match assertionName
    case None => StepRun([], SC.Proceed(model))
    case Some(name) =>
      var outcome :=
        if response.Success? && response.value == Some(VBool(true)) then SC.Proceed(model)
        else SC.Failure(Scraper(ContentUnexpected), model);
      StepRun([RunScript(name, [])], outcome)
  }

  /** What a navigation step reports once its navigation result is known: a
      failure is passed on as it is, with no assertion; a success is followed
      by the assertion. */
  function AfterNavigation(first: BrowserCall, navigation: B.NavigationResult, assertionName: Option<string>,
                           model: Model, assertion: B.ScriptResponseResult): (r: StepRun)
    ensures |r.calls| >= 1 && r.calls[0] == first
    ensures r.outcome.model == model
    ensures navigation.Failure? ==> r == StepRun([first], SC.Failure(Scraper(navigation.error), model))
    ensures navigation.Success? ==> var a := AssertNavigation(assertionName, model, assertion);
      r == StepRun([first] + a.calls, a.outcome)
  {
    if navigation.Failure? then StepRun([first], SC.Failure(Scraper(navigation.error), model))
    else
      var a := AssertNavigation(assertionName, model, assertion);
      StepRun([first] + a.calls, a.outcome)
  }

  /** `OpenPageStep.run`: loads its path, then asserts. */
  function OpenPageRun(path: string, assertionName: Option<string>, model: Model,
                       load: B.NavigationResult, assertion: B.ScriptResponseResult): (r: StepRun)
    ensures |r.calls| >= 1 && r.calls[0] == LoadPage(path)
    ensures r.outcome.model == model
  {
    AfterNavigation(LoadPage(path), load, assertionName, model, assertion)
  }

  /** `PageChangeStep.run`: runs its script through the page-change channel
      with the resolved parameters, then asserts once the page has changed. */
  function PageChangeRun(functionName: string, params: seq<Value>, paramsKeys: seq<string>,
                         assertionName: Option<string>, model: Model,
                         navigation: B.NavigationResult, assertion: B.ScriptResponseResult): (r: StepRun)
    ensures |r.calls| >= 1 && r.calls[0] == RunPageChangeScript(functionName, ResolveParams(params, paramsKeys, model))
    ensures r.outcome.model == model
  {
    AfterNavigation(RunPageChangeScript(functionName, ResolveParams(params, paramsKeys, model)),
                    navigation, assertionName, model, assertion)
  }

  /** A navigation step goes on exactly when its navigation succeeded and its
      assertion, if any, answered `true`; it then hands on the model it was
      given. Otherwise it fails with the navigation's own error, or with
      unexpected content when only the assertion failed. */
  lemma NavigationStepCharacterised(first: BrowserCall, navigation: B.NavigationResult, assertionName: Option<string>,
                                    model: Model, assertion: B.ScriptResponseResult)
    ensures var r := AfterNavigation(first, navigation, assertionName, model, assertion);
      (r.outcome.Proceed? <==> navigation.Success? && (assertionName.None? || assertion == AssertionPassed)) &&
      (r.outcome.Proceed? ==> r.outcome == SC.Proceed(model)) &&
      (navigation.Failure? ==> r.outcome == SC.Failure(Scraper(navigation.error), model)) &&
      (navigation.Success? && !r.outcome.Proceed? ==> r.outcome == SC.Failure(Scraper(ContentUnexpected), model)) &&
      (navigation.Failure? || assertionName.None? <==> |r.calls| == 1)
  {
  }

  // ---- script steps ------------------------------------------------------

  /** `ScriptStep.init` */
  function MakeScriptStep(functionName: string, params: seq<Value>, paramsKeys: seq<string>, handler: ScriptHandler): (s: Step)
    ensures s.Script? && s.channel == Synchronous
    ensures s.functionName == functionName && s.params == params && s.paramsKeys == paramsKeys
    ensures s.handler == handler
  {
    Script(functionName, params, paramsKeys, handler, Synchronous)
  }

  /** `AsyncScriptStep.init`: the parent is built with no parameters and the
      given ones are stored afterwards, so they are kept as a flat list. */
  function MakeAsyncScriptStep(functionName: string, params: seq<Value>, paramsKeys: seq<string>, handler: ScriptHandler): (s: Step)
    ensures s.Script? && s.channel == Asynchronous
    ensures s.functionName == functionName && s.params == params && s.paramsKeys == paramsKeys
    ensures s.handler == handler
  {
    var parent := Script(functionName, [], paramsKeys, handler, Asynchronous);
    Script(parent.functionName, params, parent.paramsKeys, parent.handler, parent.channel)
  }

  /** The browser call a script step makes (`runScript`, overridden by the
      asynchronous step). */
  function ScriptCall(channel: Channel, functionName: string, params: seq<Value>): BrowserCall {
    match channel
    case Synchronous => RunScript(functionName, params)
    case Asynchronous => RunAsyncScript(functionName, params)
  }

  /** `ScriptStep.run`: a failed script reports its error with the model it was
      given and the handler is not called; otherwise the handler edits a copy
      of the model and its instruction is reported with the edited copy. */
  function ScriptRun(functionName: string, params: seq<Value>, paramsKeys: seq<string>, handler: ScriptHandler,
                     channel: Channel, model: Model, result: B.ScriptResponseResult): (r: StepRun)
    ensures r.calls == [ScriptCall(channel, functionName, ResolveParams(params, paramsKeys, model))]
    ensures result.Failure? ==> r.outcome == SC.Failure(Scraper(result.error), model)
    ensures result.Success? ==>
      F.Directive(r.outcome) == handler(result.value, model).0 && r.outcome.model == handler(result.value, model).1
  {
    var call := ScriptCall(channel, functionName, ResolveParams(params, paramsKeys, model));
    match result
    case Failure(e) => StepRun([call], SC.Failure(Scraper(e), model))
    case Success(response) =>
      var (flow, modelCopy) := handler(response, model);
      StepRun([call], F.Convert(flow, modelCopy))
  }

  /** The asynchronous step resolves its parameters and maps the result
      exactly as the synchronous one does; only the channel differs. */
  lemma AsyncScriptLikeScript(functionName: string, params: seq<Value>, paramsKeys: seq<string>, handler: ScriptHandler,
                              model: Model, result: B.ScriptResponseResult)
    ensures var a := ScriptRun(functionName, params, paramsKeys, handler, Asynchronous, model, result);
      var s := ScriptRun(functionName, params, paramsKeys, handler, Synchronous, model, result);
      a.outcome == s.outcome &&
      a.calls == [RunAsyncScript(functionName, ResolveParams(params, paramsKeys, model))] &&
      s.calls == [RunScript(functionName, ResolveParams(params, paramsKeys, model))]
  {
  }

  /** A handler that reports a failure still hands on its edits to the model. */
  lemma HandlerFailureKeepsEdits(functionName: string, params: seq<Value>, paramsKeys: seq<string>, handler: ScriptHandler,
                                 channel: Channel, model: Model, response: Option<Value>, e: AnyError, edited: Model)
    requires handler(response, model) == (F.Failure(e), edited)
    ensures ScriptRun(functionName, params, paramsKeys, handler, channel, model, Success(response)).outcome == SC.Failure(e, edited)
  {
  }

  // ---- process steps -----------------------------------------------------

  /** `ProcessStep.run`: the handler edits a copy of the model; its instruction
      is reported with the edited copy, and the browser is not used. */
  function ProcessRun(handler: ProcessHandler, model: Model): (r: StepRun)
    ensures r.calls == []
    ensures F.Directive(r.outcome) == handler(model).0 && r.outcome.model == handler(model).1
  {
    var (flow, modelCopy) := handler(model);
    StepRun([], F.Convert(flow, modelCopy))
  }
}
