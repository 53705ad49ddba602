/** The polling step: once run, every timer tick evaluates a condition script
    until it answers `true`, the script fails, or more than the timeout has
    passed since the run began. Time is an integer clock reading supplied with
    each tick. */
module WaitForCondition {
  import opened Wrappers
  import opened Json
  import opened ScraperErrors
  import SC = StepCompletion
  import B = Browser

  /** What the answer to one poll decides, `elapsed` after the run began:
      `None` means keep polling. */
  function PollDecision(result: B.ScriptResponseResult, elapsed: int, timeout: int, model: Model): (r: Option<SC.StepCompletionResult>)
    ensures r.Some? ==> r.value.model == model
  {
    match result
    case Success(ok) =>
      if ok == Some(VBool(true)) then Some(SC.Proceed(model))
      else if elapsed > timeout then Some(SC.Failure(Scraper(Timeout), model))
      else None
    case Failure(e) => Some(SC.Failure(Scraper(e), model))
  }

  /** The step goes on exactly when the condition answers `true`; it keeps
      polling exactly when the condition answers anything else and no more
      than the timeout has passed; it times out only when strictly more has
      passed; a script error ends it at once with that error. */
  lemma PollDecisionCharacterised(result: B.ScriptResponseResult, elapsed: int, timeout: int, model: Model)
    ensures var r := PollDecision(result, elapsed, timeout, model);
      (r == Some(SC.Proceed(model)) <==> result == Success(Some(VBool(true)))) &&
      (r.None? <==> result.Success? && result.value != Some(VBool(true)) && elapsed <= timeout) &&
      (result.Success? && result.value != Some(VBool(true)) ==>
         (r == Some(SC.Failure(Scraper(Timeout), model)) <==> elapsed > timeout)) &&
      (result.Failure? ==> r == Some(SC.Failure(Scraper(result.error), model)))
  {
  }

  /** At exactly the timeout the step is still waiting. */
  lemma NoTimeoutAtTheLimit(response: Option<Value>, timeout: int, model: Model)
    requires response != Some(VBool(true))
    ensures PollDecision(Success(response), timeout, timeout, model).None?
    ensures PollDecision(Success(response), timeout + 1, timeout, model) == Some(SC.Failure(Scraper(Timeout), model))
  {
  }

  /** `WaitForConditionStep`: the timer, the start time, the browser, the model
      and the completion are set together by `run` and cleared together by
      `reset`. Completions are named by numbers the caller supplies; the
      reports handed to them are recorded in `deliveries`. */
  class WaitForConditionStep {
    const assertionName: string
    const timeoutInSeconds: int
    var timerScheduled: bool
    var startRunDate: Option<int>
    var browserAttached: bool
    var model: Option<Model>
    var completion: Option<nat>
    /** The condition scripts handed to the browser, one per answered tick. */
    var polls: seq<string>
    var deliveries: seq<(nat, SC.StepCompletionResult)>
    /** The completions handed to `run` so far. */
    ghost var given: set<nat>

    /** The guard of `handleTimer`: everything `run` records is present. */
    predicate Armed()
      reads this
    {
      startRunDate.Some? && browserAttached && model.Some? && completion.Some?
    }

    ghost predicate Delivered(id: nat)
      reads this
    {
      exists i :: 0 <= i < |deliveries| && deliveries[i].0 == id
    }

    /** The recorded fields are all set or all clear; a stored completion has
        not been called yet; no completion is called twice. */
    ghost predicate Valid()
      reads this
    {
      (timerScheduled == startRunDate.Some? == browserAttached == model.Some? == completion.Some?) &&
      (completion.Some? ==> completion.value in given && !Delivered(completion.value)) &&
      (forall i, j :: 0 <= i < j < |deliveries| ==> deliveries[i].0 != deliveries[j].0) &&
      (forall i :: 0 <= i < |deliveries| ==> deliveries[i].0 in given)
    }

    constructor(assertionName: string, timeoutInSeconds: int)
      ensures Valid() && !Armed()
      ensures this.assertionName == assertionName && this.timeoutInSeconds == timeoutInSeconds
      ensures polls == [] && deliveries == [] && given == {}
    {
      this.assertionName := assertionName;
      this.timeoutInSeconds := timeoutInSeconds;
      timerScheduled := false;
      startRunDate := None;
      browserAttached := false;
      model := None;
      completion := None;
      polls := [];
      deliveries := [];
      given := {};
    }

    /** `run(with:model:completion:)` at clock reading `now`. */
    method Run(model: Model, completion: nat, now: int)
      requires Valid() && completion !in given
      modifies this
      ensures Valid() && Armed() && timerScheduled
      ensures startRunDate == Some(now) && this.model == Some(model) && this.completion == Some(completion)
      ensures given == old(given) + {completion}
      ensures polls == old(polls) && deliveries == old(deliveries)
    {
      startRunDate := Some(now);
      browserAttached := true;
      this.model := Some(model);
      this.completion := Some(completion);
      given := given + {completion};
      timerScheduled := true;
    }

    /** `reset()` */
    method Reset()
      modifies this
      ensures !timerScheduled && startRunDate.None? && !browserAttached && model.None? && completion.None?
      ensures polls == old(polls) && deliveries == old(deliveries) && given == old(given)
    {
      timerScheduled := false;
      startRunDate := None;
      browserAttached := false;
      model := None;
      completion := None;
    }

    /** One timer tick whose condition script is answered with `result` at
        clock reading `now`. A tick with nothing recorded does nothing. A
        decisive answer resets the step and then calls the completion once. */
    method HandleTimer(now: int, result: B.ScriptResponseResult) returns (polled: bool)
      requires Valid()
      modifies this
      ensures Valid()
      ensures polled == old(Armed())
      ensures !polled ==> (polls == old(polls) && deliveries == old(deliveries) &&
        timerScheduled == old(timerScheduled) && startRunDate == old(startRunDate) &&
        model == old(model) && completion == old(completion))
      ensures polled ==> polls == old(polls) + [assertionName]
      ensures polled ==>
        var d := PollDecision(result, now - old(startRunDate).value, timeoutInSeconds, old(model).value);
        (d.None? ==> deliveries == old(deliveries) && startRunDate == old(startRunDate) &&
                     model == old(model) && completion == old(completion) && Armed()) &&
        (d.Some? ==> deliveries == old(deliveries) + [(old(completion).value, d.value)] && !Armed() && !timerScheduled)
      ensures given == old(given)
    {
      if !Armed() {
        return false;
      }
      var start, m, c := startRunDate.value, model.value, completion.value;
      polls := polls + [assertionName];
      var d := PollDecision(result, now - start, timeoutInSeconds, m);
      if d.Some? {
        Reset();
        deliveries := deliveries + [(c, d.value)];
      }
      return true;
    }
  }
}
