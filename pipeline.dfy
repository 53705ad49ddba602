/** Steps and runner together: a started step is performed against the
    browser's answers and its report is handed back to the runner, one report
    at a time. The scenarios at the end are the pipelines the library's own
    tests describe. */
module Pipeline {
  import opened Wrappers
  import opened Json
  import opened ScraperErrors
  import F = StepFlow
  import B = Browser
  import S = Steps
  import R = Runner

  /** What the browser answers to one step: the navigation result, the
      assertion script's result and the step script's result. A step uses
      only the answers its kind asks for. */
  datatype HostAnswers = HostAnswers(navigation: B.NavigationResult, assertion: B.ScriptResponseResult,
                                     script: B.ScriptResponseResult)

  /** `step.run(with:model:completion:)` for any step kind. */
  function Perform(step: S.Step, model: Model, host: HostAnswers): (r: S.StepRun)
    ensures step.Process? ==> r.calls == []
    ensures step.OpenPage? || step.PageChange? ==> r.outcome.model == model
    ensures step.Script? && host.script.Failure? ==> r.outcome == R.SC.Failure(Scraper(host.script.error), model)
  {
    match step
    case OpenPage(path, assertionName) =>
      S.OpenPageRun(path, assertionName, model, host.navigation, host.assertion)
    case PageChange(functionName, params, paramsKeys, assertionName) =>
      S.PageChangeRun(functionName, params, paramsKeys, assertionName, model, host.navigation, host.assertion)
    case Script(functionName, params, paramsKeys, handler, channel) =>
      S.ScriptRun(functionName, params, paramsKeys, handler, channel, model, host.script)
    case Process(process) =>
      S.ProcessRun(process, model)
  }

  /** The runner is waiting for the report of an existing step. */
  predicate Ready(v: R.RunnerView<S.Step>) {
    v.state.InProgress? && 0 <= v.index < |v.steps|
  }

  /** Performs the current step and applies its report, while the runner is
      waiting for one and answers remain. */
  function Drive(v: R.RunnerView<S.Step>, hosts: seq<HostAnswers>): (r: R.RunnerView<S.Step>)
    ensures r.steps == v.steps
    decreases |hosts|
  {
    if |hosts| == 0 || !Ready(v) then v
    else Drive(R.OnOutcome(v, Perform(v.steps[v.index], v.model, hosts[0]).outcome), hosts[1..])
  }

  /** A runner with one observer, as the tests set one up. */
  function Observed(steps: seq<S.Step>, completion: Option<nat>): (v: R.RunnerView<S.Step>)
    ensures v.observers == [0] && v.state == R.NotStarted && v.model == map[]
  {
    R.Initial(steps, completion).(observers := [0])
  }

  // ---- invariants of a whole run ----------------------------------------

  /** Every started index names a step. */
  ghost predicate StartedInRange(v: R.RunnerView<S.Step>) {
    forall k :: 0 <= k < |v.started| ==> 0 <= v.started[k] < |v.steps|
  }

  /** The single observer has been told exactly the published states. */
  ghost predicate ObserverSawPublished(v: R.RunnerView<S.Step>) {
    v.observers == [0] &&
    |v.notifications| == |v.published| &&
    forall k :: 0 <= k < |v.published| ==> v.notifications[k] == R.Notification(0, v.published[k])
  }

  lemma {:induction false} AssignObserved(v: R.RunnerView<S.Step>, s: R.State)
    requires ObserverSawPublished(v)
    ensures ObserverSawPublished(R.Assign(v, s))
  {
    var r := R.Assign(v, s);
    if !R.SameState(s, v.state) {
      assert R.FanOut(v.observers, s) == [R.Notification(0, s)];
      assert r.notifications == v.notifications + [R.Notification(0, s)];
      assert r.published == v.published + [s];
    }
  }

  lemma {:induction false} RunObserved(v: R.RunnerView<S.Step>)
    requires ObserverSawPublished(v) && StartedInRange(v)
    ensures ObserverSawPublished(R.RunSpec(v, None)) && StartedInRange(R.RunSpec(v, None))
  {
    if 0 <= v.index < |v.steps| {
      AssignObserved(v, R.InProgress(v.index));
    } else {
      AssignObserved(v, R.State.Failure(Scraper(IncorrectStep)));
    }
  }

  lemma {:induction false} OutcomeObserved(v: R.RunnerView<S.Step>, outcome: R.SC.StepCompletionResult)
    requires ObserverSawPublished(v) && StartedInRange(v)
    ensures ObserverSawPublished(R.OnOutcome(v, outcome)) && StartedInRange(R.OnOutcome(v, outcome))
  {
    var v1 := v.(model := outcome.model);
    match outcome
    case Finish(_) => AssignObserved(v1, R.State.Success);
    case Proceed(_) =>
      var v2 := v1.(index := v1.index + 1);
      if v2.index < |v2.steps| { RunObserved(v2); } else { AssignObserved(v2, R.State.Success); }
    case JumpToStep(n, _) => RunObserved(v1.(index := n));
    case Failure(e, _) => AssignObserved(v1, R.State.Failure(e));
  }

  /** However the steps report, a run starts only steps that exist and its
      observer hears exactly the published states, in order. */
  lemma {:induction false} DriveObserved(v: R.RunnerView<S.Step>, hosts: seq<HostAnswers>)
    requires ObserverSawPublished(v) && StartedInRange(v)
    ensures ObserverSawPublished(Drive(v, hosts)) && StartedInRange(Drive(v, hosts))
    decreases |hosts|
  {
    if |hosts| > 0 && Ready(v) {
      var outcome := Perform(v.steps[v.index], v.model, hosts[0]).outcome;
      OutcomeObserved(v, outcome);
      DriveObserved(R.OnOutcome(v, outcome), hosts[1..]);
    }
  }

  /** However the steps report, published states never repeat and no
      completion handler is called twice. */
  lemma {:induction false} DriveValid(v: R.RunnerView<S.Step>, hosts: seq<HostAnswers>)
    requires R.Valid(v)
    ensures R.Valid(Drive(v, hosts))
    decreases |hosts|
  {
    if |hosts| > 0 && Ready(v) {
      var outcome := Perform(v.steps[v.index], v.model, hosts[0]).outcome;
      R.OutcomeValid(v, outcome);
      DriveValid(R.OnOutcome(v, outcome), hosts[1..]);
    }
  }

  /** `Drive` hands no report to a run that has ended: further answers are
      not performed. What a report that does reach an ended runner does is
      `Runner.ReportAfterEnd`. */
  lemma DriveStopsAtEnd(v: R.RunnerView<S.Step>, hosts: seq<HostAnswers>)
    requires R.IsTerminal(v.state)
    ensures Drive(v, hosts) == v
  {
  }

  // ---- the tests' pipelines ---------------------------------------------

  const OpenPageOne: S.Step := S.OpenPage("page1.html", Some("assertPage1Title"))

  /** Every browser request succeeds and the assertion answers `true`. */
  const AllGood := HostAnswers(Success(()), Success(Some(VBool(true))), Success(None))

  /** `n` rounds of good answers. */
  function Answers(n: nat): (r: seq<HostAnswers>)
    ensures |r| == n && forall i :: 0 <= i < n ==> r[i] == AllGood
  {
    seq(n, _ => AllGood)
  }

  /** A process handler that stores `x` under `key` and then gives `flow`. */
  function Writes(key: string, x: int, flow: F.StepFlowResult): S.ProcessHandler {
    (m: Model) => (flow, m[key := VInt(x)])
  }

  /** One step of a run: the current step's report, applied. */
  function Next(v: R.RunnerView<S.Step>): R.RunnerView<S.Step>
    requires Ready(v)
  {
    R.OnOutcome(v, Perform(v.steps[v.index], v.model, AllGood).outcome)
  }

  lemma DriveUnfold(v: R.RunnerView<S.Step>, n: nat)
    requires Ready(v)
    ensures Drive(v, Answers(n + 1)) == Drive(Next(v), Answers(n))
  {
    assert Answers(n + 1)[1..] == Answers(n);
  }

  /** The runner has started step `i` of `steps` and waits for its report,
      having published `published`, started `started`, holding `model`, and
      with the given stored and already called completions. */
  ghost predicate At(v: R.RunnerView<S.Step>, steps: seq<S.Step>, i: int, published: seq<R.State>, started: seq<int>,
                     model: Model, completion: Option<nat>, fired: seq<nat>) {
    Ready(v) && v.steps == steps && v.index == i && v.state == R.InProgress(i) && v.published == published &&
    v.started == started && v.model == model && v.completion == completion && v.fired == fired
  }

  /** When the run ends, a stored completion is called once and forgotten. */
  ghost predicate EndCalls(v: R.RunnerView<S.Step>, r: R.RunnerView<S.Step>) {
    r.completion.None? && r.fired == (if v.completion.Some? then v.fired + [v.completion.value] else v.fired)
  }

  // One lemma per kind of step the scenarios take, each on any runner. Each
  // hands back the runner after the step and what the proofs need of it.

  lemma Start(steps: seq<S.Step>, completion: Option<nat>) returns (v: R.RunnerView<S.Step>)
    requires |steps| > 0
    ensures v == R.RunSpec(Observed(steps, None), completion)
    ensures At(v, steps, 0, [R.InProgress(0)], [0], map[], completion, [])
  {
    v := R.RunSpec(Observed(steps, None), completion);
  }

  /** A page that loads and passes its assertion. */
  lemma PageStep(v: R.RunnerView<S.Step>, n: nat) returns (r: R.RunnerView<S.Step>)
    requires Ready(v) && v.state == R.InProgress(v.index) && v.steps[v.index] == OpenPageOne
    ensures Drive(v, Answers(n + 1)) == Drive(r, Answers(n))
    ensures r.index == v.index + 1 && r.model == v.model && r.steps == v.steps
    ensures v.index + 1 < |v.steps| ==>
      Ready(r) && r.state == R.InProgress(v.index + 1) && r.published == v.published + [R.InProgress(v.index + 1)] &&
      r.started == v.started + [v.index + 1] && r.fired == v.fired && r.completion == v.completion
    ensures v.index + 1 == |v.steps| ==>
      r.state == R.State.Success && r.published == v.published + [R.State.Success] && r.started == v.started &&
      EndCalls(v, r)
  {
    DriveUnfold(v, n);
    r := Next(v);
    assert Perform(OpenPageOne, v.model, AllGood).outcome == R.SC.Proceed(v.model);
  }

  lemma WritesNext(v: R.RunnerView<S.Step>, key: string, x: int, flow: F.StepFlowResult)
    requires Ready(v) && v.steps[v.index] == S.Process(Writes(key, x, flow))
    ensures Next(v) == R.OnOutcome(v, F.Convert(flow, v.model[key := VInt(x)]))
  {
    assert Writes(key, x, flow)(v.model) == (flow, v.model[key := VInt(x)]);
  }

  lemma ProceedStep(v: R.RunnerView<S.Step>, key: string, x: int, n: nat) returns (r: R.RunnerView<S.Step>)
    requires Ready(v) && v.state == R.InProgress(v.index) && v.steps[v.index] == S.Process(Writes(key, x, F.Proceed))
    ensures Drive(v, Answers(n + 1)) == Drive(r, Answers(n))
    ensures r.index == v.index + 1 && r.model == v.model[key := VInt(x)] && r.steps == v.steps
    ensures v.index + 1 < |v.steps| ==>
      Ready(r) && r.state == R.InProgress(v.index + 1) && r.published == v.published + [R.InProgress(v.index + 1)] &&
      r.started == v.started + [v.index + 1] && r.fired == v.fired && r.completion == v.completion
    ensures v.index + 1 == |v.steps| ==>
      r.state == R.State.Success && r.published == v.published + [R.State.Success] && r.started == v.started &&
      EndCalls(v, r)
  {
    DriveUnfold(v, n);
    r := Next(v);
    WritesNext(v, key, x, F.Proceed);
  }

  lemma FinishStep(v: R.RunnerView<S.Step>, key: string, x: int, n: nat) returns (r: R.RunnerView<S.Step>)
    requires Ready(v) && v.state == R.InProgress(v.index) && v.steps[v.index] == S.Process(Writes(key, x, F.Finish))
    ensures Drive(v, Answers(n + 1)) == Drive(r, Answers(n))
    ensures r.state == R.State.Success && r.model == v.model[key := VInt(x)] && r.steps == v.steps
    ensures r.published == v.published + [R.State.Success] && r.started == v.started && EndCalls(v, r)
  {
    DriveUnfold(v, n);
    r := Next(v);
    WritesNext(v, key, x, F.Finish);
  }

  lemma FailStep(v: R.RunnerView<S.Step>, key: string, x: int, e: AnyError, n: nat) returns (r: R.RunnerView<S.Step>)
    requires Ready(v) && v.state == R.InProgress(v.index) && v.steps[v.index] == S.Process(Writes(key, x, F.Failure(e)))
    ensures Drive(v, Answers(n + 1)) == Drive(r, Answers(n))
    ensures r.state == R.State.Failure(e) && r.model == v.model[key := VInt(x)] && r.steps == v.steps
    ensures r.published == v.published + [R.State.Failure(e)] && r.started == v.started && EndCalls(v, r)
  {
    DriveUnfold(v, n);
    r := Next(v);
    WritesNext(v, key, x, F.Failure(e));
  }

  lemma JumpStep(v: R.RunnerView<S.Step>, key: string, x: int, target: int, n: nat) returns (r: R.RunnerView<S.Step>)
    requires Ready(v) && v.state == R.InProgress(v.index) && v.steps[v.index] == S.Process(Writes(key, x, F.JumpToStep(target)))
    requires target != v.index
    ensures Drive(v, Answers(n + 1)) == Drive(r, Answers(n))
    ensures r.index == target && r.model == v.model[key := VInt(x)] && r.steps == v.steps
    ensures 0 <= target < |v.steps| ==>
      Ready(r) && r.state == R.InProgress(target) && r.published == v.published + [R.InProgress(target)] &&
      r.started == v.started + [target] && r.fired == v.fired && r.completion == v.completion
    ensures !(0 <= target < |v.steps|) ==>
      r.state == R.State.Failure(Scraper(IncorrectStep)) && r.started == v.started &&
      r.published == v.published + [R.State.Failure(Scraper(IncorrectStep))] && EndCalls(v, r)
  {
    DriveUnfold(v, n);
    r := Next(v);
    WritesNext(v, key, x, F.JumpToStep(target));
  }

  /** Short logs built one entry at a time. */
  lemma Listed<T>(a: T, b: T, c: T, d: T)
    ensures [a] + [b] == [a, b]
    ensures [a, b] + [c] == [a, b, c]
    ensures [a, b, c] + [d] == [a, b, c, d]
  {
  }

  // The scenarios. Each holds for any step list that starts as the test's
  // does; the steps the test expects never to run may be anything. Each
  // scenario is proved one step at a time: a lemma per step takes the runner
  // as the previous step left it.

  lemma OpenPageOnlyFrom(v1: R.RunnerView<S.Step>, steps: seq<S.Step>)
    requires steps == [OpenPageOne] && At(v1, steps, 0, [R.InProgress(0)], [0], map[], Some(7), [])
    ensures var v := Drive(v1, Answers(1));
      v.published == [R.InProgress(0), R.State.Success] && v.fired == [7] && v.completion.None?
  {
    var v2 := PageStep(v1, 0);
    DriveStopsAtEnd(v2, Answers(0));
  }

  /** A page that loads and passes its assertion: `[inProgress(0), success]`,
      and the completion is called once. */
  lemma OpenPageOnlyScenario(steps: seq<S.Step>)
    requires steps == [OpenPageOne]
    ensures var v := Drive(R.RunSpec(Observed(steps, None), Some(7)), Answers(1));
      v.published == [R.InProgress(0), R.State.Success] && v.fired == [7] && v.completion.None? &&
      v.notifications == [R.Notification(0, R.InProgress(0)), R.Notification(0, R.State.Success)]
  {
    var v1 := Start(steps, Some(7));
    OpenPageOnlyFrom(v1, steps);
    RunObserved(Observed(steps, None).(completion := Some(7)));
    DriveObserved(v1, Answers(1));
  }

  lemma FinishEarlyAfterPage(v2: R.RunnerView<S.Step>, steps: seq<S.Step>)
    requires |steps| == 4 && steps[1] == S.Process(Writes("step2", 123, F.Finish))
    requires At(v2, steps, 1, [R.InProgress(0), R.InProgress(1)], [0, 1], map[], None, [])
    ensures var v := Drive(v2, Answers(2));
      v.published == [R.InProgress(0), R.InProgress(1), R.State.Success] && v.started == [0, 1] &&
      v.model == map["step2" := VInt(123)]
  {
    var v3 := FinishStep(v2, "step2", 123, 1);
    DriveStopsAtEnd(v3, Answers(1));
    Listed(R.InProgress(0), R.InProgress(1), R.State.Success, R.State.Success);
  }

  lemma FinishEarlyFrom(v1: R.RunnerView<S.Step>, steps: seq<S.Step>)
    requires |steps| == 4 && steps[0] == OpenPageOne && steps[1] == S.Process(Writes("step2", 123, F.Finish))
    requires At(v1, steps, 0, [R.InProgress(0)], [0], map[], None, [])
    ensures var v := Drive(v1, Answers(3));
      v.published == [R.InProgress(0), R.InProgress(1), R.State.Success] && v.started == [0, 1] &&
      v.model == map["step2" := VInt(123)]
  {
    var v2 := PageStep(v1, 2);
    Listed(R.InProgress(0), R.InProgress(1), R.State.Success, R.State.Success);
    Listed(0, 1, 0, 0);
    FinishEarlyAfterPage(v2, steps);
  }

  /** `finish` from the second step: the later steps never start. */
  lemma FinishEarlyScenario(steps: seq<S.Step>)
    requires |steps| == 4 && steps[0] == OpenPageOne && steps[1] == S.Process(Writes("step2", 123, F.Finish))
    ensures var v := Drive(R.RunSpec(Observed(steps, None), None), Answers(3));
      v.published == [R.InProgress(0), R.InProgress(1), R.State.Success] && v.started == [0, 1] &&
      v.model == map["step2" := VInt(123)]
  {
    var v1 := Start(steps, None);
    FinishEarlyFrom(v1, steps);
  }

  lemma FailEarlyAfterPage(v2: R.RunnerView<S.Step>, steps: seq<S.Step>, e: NsError)
    requires |steps| == 4 && steps[1] == S.Process(Writes("step2", 123, F.Failure(Foreign(e))))
    requires At(v2, steps, 1, [R.InProgress(0), R.InProgress(1)], [0, 1], map[], None, [])
    ensures var v := Drive(v2, Answers(2));
      v.published == [R.InProgress(0), R.InProgress(1), R.State.Failure(Foreign(e))] && v.started == [0, 1] &&
      v.model == map["step2" := VInt(123)] && v.state == R.State.Failure(Foreign(e))
  {
    var v3 := FailStep(v2, "step2", 123, Foreign(e), 1);
    DriveStopsAtEnd(v3, Answers(1));
    Listed(R.InProgress(0), R.InProgress(1), R.State.Failure(Foreign(e)), R.State.Success);
  }

  lemma FailEarlyFrom(v1: R.RunnerView<S.Step>, steps: seq<S.Step>, e: NsError)
    requires |steps| == 4 && steps[0] == OpenPageOne && steps[1] == S.Process(Writes("step2", 123, F.Failure(Foreign(e))))
    requires At(v1, steps, 0, [R.InProgress(0)], [0], map[], None, [])
    ensures var v := Drive(v1, Answers(3));
      v.published == [R.InProgress(0), R.InProgress(1), R.State.Failure(Foreign(e))] && v.started == [0, 1] &&
      v.model == map["step2" := VInt(123)] && v.state == R.State.Failure(Foreign(e))
  {
    var v2 := PageStep(v1, 2);
    Listed(R.InProgress(0), R.InProgress(1), R.State.Success, R.State.Success);
    Listed(0, 1, 0, 0);
    FailEarlyAfterPage(v2, steps, e);
  }

  /** `failure(e)` from the second step: the run ends in `failure(e)` with
      that very error, keeping the step's edits. */
  lemma FailEarlyScenario(steps: seq<S.Step>, e: NsError)
    requires |steps| == 4 && steps[0] == OpenPageOne && steps[1] == S.Process(Writes("step2", 123, F.Failure(Foreign(e))))
    ensures var v := Drive(R.RunSpec(Observed(steps, None), None), Answers(3));
      v.published == [R.InProgress(0), R.InProgress(1), R.State.Failure(Foreign(e))] && v.started == [0, 1] &&
      v.model == map["step2" := VInt(123)] && v.state == R.State.Failure(Foreign(e))
  {
    var v1 := Start(steps, None);
    FailEarlyFrom(v1, steps, e);
  }

  lemma SkipStepAfterJump(v3: R.RunnerView<S.Step>, steps: seq<S.Step>)
    requires |steps| == 4 && steps[3] == S.Process(Writes("step4", 345, F.Proceed))
    requires At(v3, steps, 3, [R.InProgress(0), R.InProgress(1), R.InProgress(3)], [0, 1, 3],
                map["step2" := VInt(123)], None, [])
    ensures var v := Drive(v3, Answers(1));
      v.published == [R.InProgress(0), R.InProgress(1), R.InProgress(3), R.State.Success] &&
      v.started == [0, 1, 3] && v.model == map["step2" := VInt(123), "step4" := VInt(345)]
  {
    var v4 := ProceedStep(v3, "step4", 345, 0);
    DriveStopsAtEnd(v4, Answers(0));
    Listed(R.InProgress(0), R.InProgress(1), R.InProgress(3), R.State.Success);
  }

  lemma SkipStepAfterPage(v2: R.RunnerView<S.Step>, steps: seq<S.Step>)
    requires |steps| == 4 && steps[1] == S.Process(Writes("step2", 123, F.JumpToStep(3)))
    requires steps[3] == S.Process(Writes("step4", 345, F.Proceed))
    requires At(v2, steps, 1, [R.InProgress(0), R.InProgress(1)], [0, 1], map[], None, [])
    ensures var v := Drive(v2, Answers(2));
      v.published == [R.InProgress(0), R.InProgress(1), R.InProgress(3), R.State.Success] &&
      v.started == [0, 1, 3] && v.model == map["step2" := VInt(123), "step4" := VInt(345)]
  {
    var v3 := JumpStep(v2, "step2", 123, 3, 1);
    Listed(R.InProgress(0), R.InProgress(1), R.InProgress(3), R.State.Success);
    Listed(0, 1, 3, 0);
    SkipStepAfterJump(v3, steps);
  }

  lemma SkipStepFrom(v1: R.RunnerView<S.Step>, steps: seq<S.Step>)
    requires |steps| == 4 && steps[0] == OpenPageOne && steps[1] == S.Process(Writes("step2", 123, F.JumpToStep(3)))
    requires steps[3] == S.Process(Writes("step4", 345, F.Proceed))
    requires At(v1, steps, 0, [R.InProgress(0)], [0], map[], None, [])
    ensures var v := Drive(v1, Answers(3));
      v.published == [R.InProgress(0), R.InProgress(1), R.InProgress(3), R.State.Success] &&
      v.started == [0, 1, 3] && v.model == map["step2" := VInt(123), "step4" := VInt(345)]
  {
    var v2 := PageStep(v1, 2);
    Listed(R.InProgress(0), R.InProgress(1), R.InProgress(3), R.State.Success);
    Listed(0, 1, 3, 0);
    SkipStepAfterPage(v2, steps);
  }

  /** `jumpToStep(3)` from the second step skips the third. */
  lemma SkipStepScenario(steps: seq<S.Step>)
    requires |steps| == 4 && steps[0] == OpenPageOne && steps[1] == S.Process(Writes("step2", 123, F.JumpToStep(3)))
    requires steps[3] == S.Process(Writes("step4", 345, F.Proceed))
    ensures var v := Drive(R.RunSpec(Observed(steps, None), None), Answers(3));
      v.published == [R.InProgress(0), R.InProgress(1), R.InProgress(3), R.State.Success] &&
      v.started == [0, 1, 3] && v.model == map["step2" := VInt(123), "step4" := VInt(345)]
  {
    var v1 := Start(steps, None);
    SkipStepFrom(v1, steps);
  }

  lemma SkipToInvalidAfterPage(v2: R.RunnerView<S.Step>, steps: seq<S.Step>)
    requires |steps| == 4 && steps[1] == S.Process(Writes("step2", 123, F.JumpToStep(4)))
    requires At(v2, steps, 1, [R.InProgress(0), R.InProgress(1)], [0, 1], map[], Some(1), [])
    ensures var v := Drive(v2, Answers(2));
      v.published == [R.InProgress(0), R.InProgress(1), R.State.Failure(Scraper(IncorrectStep))] &&
      v.state == R.State.Failure(Scraper(IncorrectStep)) && v.started == [0, 1] &&
      v.model == map["step2" := VInt(123)] && v.fired == [1]
  {
    var v3 := JumpStep(v2, "step2", 123, 4, 1);
    DriveStopsAtEnd(v3, Answers(1));
    Listed(R.InProgress(0), R.InProgress(1), R.State.Failure(Scraper(IncorrectStep)), R.State.Success);
    Listed(1, 0, 0, 0);
  }

  lemma SkipToInvalidFrom(v1: R.RunnerView<S.Step>, steps: seq<S.Step>)
    requires |steps| == 4 && steps[0] == OpenPageOne && steps[1] == S.Process(Writes("step2", 123, F.JumpToStep(4)))
    requires At(v1, steps, 0, [R.InProgress(0)], [0], map[], Some(1), [])
    ensures var v := Drive(v1, Answers(3));
      v.published == [R.InProgress(0), R.InProgress(1), R.State.Failure(Scraper(IncorrectStep))] &&
      v.state == R.State.Failure(Scraper(IncorrectStep)) && v.started == [0, 1] &&
      v.model == map["step2" := VInt(123)] && v.fired == [1]
  {
    var v2 := PageStep(v1, 2);
    Listed(R.InProgress(0), R.InProgress(1), R.State.Success, R.State.Success);
    Listed(0, 1, 0, 0);
    SkipToInvalidAfterPage(v2, steps);
  }

  /** `jumpToStep(4)` in a list of four steps fails with `incorrectStep`,
      keeping the jumping step's edits, and calls the completion. */
  lemma SkipToInvalidStepScenario(steps: seq<S.Step>)
    requires |steps| == 4 && steps[0] == OpenPageOne && steps[1] == S.Process(Writes("step2", 123, F.JumpToStep(4)))
    ensures var v := Drive(R.RunSpec(Observed(steps, None), Some(1)), Answers(3));
      v.published == [R.InProgress(0), R.InProgress(1), R.State.Failure(Scraper(IncorrectStep))] &&
      v.state == R.State.Failure(Scraper(IncorrectStep)) && v.started == [0, 1] &&
      v.model == map["step2" := VInt(123)] && v.fired == [1]
  {
    var v1 := Start(steps, Some(1));
    SkipToInvalidFrom(v1, steps);
  }

  /** The message body the tests' asynchronous script answers with. */
  const AsyncAnswer := Some(VString("thanks for waiting...hello!"))

  function ExpectAsyncAnswer(response: Option<Value>, m: Model): (F.StepFlowResult, Model) {
    if response == AsyncAnswer then (F.Proceed, m) else (F.Failure(Scraper(ContentUnexpected)), m)
  }

  const AsyncStep := S.MakeAsyncScriptStep("getStringAsync", [], [], ExpectAsyncAnswer)

  /** The asynchronous step answered with the expected body proceeds. */
  lemma AsyncStepProceeds(v: R.RunnerView<S.Step>) returns (r: R.RunnerView<S.Step>)
    requires Ready(v) && v.state == R.InProgress(v.index) && v.steps[v.index] == AsyncStep && v.index + 1 == |v.steps|
    ensures Drive(v, [AllGood.(script := Success(AsyncAnswer))]) == r
    ensures r.state == R.State.Success && r.published == v.published + [R.State.Success]
  {
    var answered := AllGood.(script := Success(AsyncAnswer));
    assert Perform(AsyncStep, v.model, answered).outcome == R.SC.Proceed(v.model);
    r := R.OnOutcome(v, R.SC.Proceed(v.model));
    assert [answered][1..] == [];
  }

  lemma AsyncScriptFrom(v1: R.RunnerView<S.Step>, steps: seq<S.Step>)
    requires steps == [OpenPageOne, AsyncStep] && At(v1, steps, 0, [R.InProgress(0)], [0], map[], None, [])
    ensures var v := Drive(v1, [AllGood, AllGood.(script := Success(AsyncAnswer))]);
      v.published == [R.InProgress(0), R.InProgress(1), R.State.Success]
  {
    var answered := AllGood.(script := Success(AsyncAnswer));
    assert Drive(v1, [AllGood, answered]) == Drive(Next(v1), [answered]);
    var v2 := PageStep(v1, 0);
    var v3 := AsyncStepProceeds(Next(v1));
  }

  /** An asynchronous script step after a page: the message's body reaches
      the handler and the run succeeds. */
  lemma AsyncScriptScenario(steps: seq<S.Step>)
    requires steps == [OpenPageOne, AsyncStep]
    ensures var v := Drive(R.RunSpec(Observed(steps, None), None), [AllGood, AllGood.(script := Success(AsyncAnswer))]);
      v.published == [R.InProgress(0), R.InProgress(1), R.State.Success]
  {
    var v1 := Start(steps, None);
    AsyncScriptFrom(v1, steps);
  }

  /** Three process steps that each store a number and proceed. */
  ghost predicate ReuseSteps(steps: seq<S.Step>) {
    |steps| == 3 && steps[0] == S.Process(Writes("a", 5, F.Proceed)) &&
    steps[1] == S.Process(Writes("b", 6, F.Proceed)) && steps[2] == S.Process(Writes("c", 7, F.Proceed))
  }

  /** The first run of the reuse test: a page, then a step that stores `z`;
      the run succeeds. */
  ghost predicate FirstSteps(steps: seq<S.Step>) {
    steps == [OpenPageOne, S.Process(Writes("z", 1, F.Proceed))]
  }

  lemma FirstRun(steps: seq<S.Step>) returns (first: R.RunnerView<S.Step>)
    requires FirstSteps(steps)
    ensures first == Drive(R.RunSpec(Observed(steps, None), None), Answers(2))
    ensures first.state == R.State.Success && first.model == map["z" := VInt(1)]
    ensures first.published == [R.InProgress(0), R.InProgress(1), R.State.Success]
  {
    var v1 := Start(steps, None);
    var v2 := PageStep(v1, 1);
    first := ProceedStep(v2, "z", 1, 0);
    DriveStopsAtEnd(first, Answers(0));
    Listed(R.InProgress(0), R.InProgress(1), R.State.Success, R.State.Success);
  }

  /** Appending to a log one state at a time. */
  lemma Appended<T>(p: seq<T>, a: T, b: T, c: T, d: T, e: T)
    ensures (p + [a, b]) + [c] == p + [a, b, c]
    ensures (p + [a, b, c]) + [d] == p + [a, b, c, d]
    ensures (p + [a, b, c, d]) + [e] == p + [a, b, c, d, e]
  {
  }

  /** The new steps given to a runner that has succeeded. */
  lemma Restart(first: R.RunnerView<S.Step>, again: seq<S.Step>) returns (v: R.RunnerView<S.Step>)
    requires first.state == R.State.Success && ReuseSteps(again)
    ensures v == R.RunStepsSpec(first, again)
    ensures At(v, again, 0, first.published + [R.NotStarted, R.InProgress(0)], first.started + [0], first.model,
               v.completion, v.fired)
  {
    v := R.RunStepsSpec(first, again);
    R.RunStepsAfterEnd(first, again);
  }

  lemma ReuseThird(v3: R.RunnerView<S.Step>, again: seq<S.Step>, p: seq<R.State>, st: seq<int>, m: Model)
    requires ReuseSteps(again)
    requires At(v3, again, 2, p + [R.NotStarted, R.InProgress(0), R.InProgress(1), R.InProgress(2)], st,
                m["a" := VInt(5)]["b" := VInt(6)], v3.completion, v3.fired)
    ensures var v := Drive(v3, Answers(1));
      v.published == p + [R.NotStarted, R.InProgress(0), R.InProgress(1), R.InProgress(2), R.State.Success] &&
      v.model == m["a" := VInt(5)]["b" := VInt(6)]["c" := VInt(7)]
  {
    var v4 := ProceedStep(v3, "c", 7, 0);
    DriveStopsAtEnd(v4, Answers(0));
    Appended(p, R.NotStarted, R.InProgress(0), R.InProgress(1), R.InProgress(2), R.State.Success);
  }

  lemma ReuseSecond(v2: R.RunnerView<S.Step>, again: seq<S.Step>, p: seq<R.State>, st: seq<int>, m: Model)
    requires ReuseSteps(again)
    requires At(v2, again, 1, p + [R.NotStarted, R.InProgress(0), R.InProgress(1)], st, m["a" := VInt(5)],
                v2.completion, v2.fired)
    ensures var v := Drive(v2, Answers(2));
      v.published == p + [R.NotStarted, R.InProgress(0), R.InProgress(1), R.InProgress(2), R.State.Success] &&
      v.model == m["a" := VInt(5)]["b" := VInt(6)]["c" := VInt(7)]
  {
    var v3 := ProceedStep(v2, "b", 6, 1);
    Appended(p, R.NotStarted, R.InProgress(0), R.InProgress(1), R.InProgress(2), R.State.Success);
    ReuseThird(v3, again, p, v3.started, m);
  }

  /** A runner that has succeeded, given the new steps: they edit the model
      the first run left. */
  lemma ReuseAfterSuccess(first: R.RunnerView<S.Step>, again: seq<S.Step>)
    requires first.state == R.State.Success && ReuseSteps(again)
    ensures var v := Drive(R.RunStepsSpec(first, again), Answers(3));
      v.published == first.published + [R.NotStarted, R.InProgress(0), R.InProgress(1), R.InProgress(2), R.State.Success] &&
      v.model == first.model["a" := VInt(5)]["b" := VInt(6)]["c" := VInt(7)]
  {
    var p := first.published;
    var v1 := Restart(first, again);
    var v2 := ProceedStep(v1, "a", 5, 2);
    Appended(p, R.NotStarted, R.InProgress(0), R.InProgress(1), R.InProgress(2), R.State.Success);
    ReuseSecond(v2, again, p, v2.started, first.model);
  }

  /** A finished runner given new steps: the observer hears `notStarted`
      first, the new steps run from the first, and the model the first run
      left carries over. */
  lemma ReuseScenario(steps: seq<S.Step>, again: seq<S.Step>)
    requires FirstSteps(steps) && ReuseSteps(again)
    ensures var first := Drive(R.RunSpec(Observed(steps, None), None), Answers(2));
      var v := Drive(R.RunStepsSpec(first, again), Answers(3));
      first.published == [R.InProgress(0), R.InProgress(1), R.State.Success] &&
      v.published == first.published + [R.NotStarted, R.InProgress(0), R.InProgress(1), R.InProgress(2), R.State.Success] &&
      v.model == map["z" := VInt(1), "a" := VInt(5), "b" := VInt(6), "c" := VInt(7)] && v.model["z"] == VInt(1)
  {
    var first := FirstRun(steps);
    ReuseAfterSuccess(first, again);
  }
}
