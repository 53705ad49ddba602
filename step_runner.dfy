/** The step runner: runs an ordered list of steps over a shared model,
    publishing its state to observers and calling a completion handler when it
    ends. `RunnerView` and the functions on it specify each operation; the
    class `StepRunner` performs them on its fields and is proved to agree. */
module Runner {
  import opened Wrappers
  import opened Json
  import opened ScraperErrors
  import SC = StepCompletion

  /** `StepRunnerState` */
  datatype State = NotStarted | InProgress(index: int) | Success | Failure(error: AnyError)

  /** The library's own `==` on states: the step index counts, the error of a
      failure does not. */
  predicate SameState(a: State, b: State) {
    match (a, b)
    case (NotStarted, NotStarted) => true
    case (Success, Success) => true
    case (Failure(_), Failure(_)) => true
    case (InProgress(i), InProgress(j)) => i == j
    case _ => false
  }

  /** The library's `==` is value equality, except that all failures are equal. */
  lemma SameStateIsEqualityUpToErrors(a: State, b: State)
    ensures SameState(a, b) <==> a == b || (a.Failure? && b.Failure?)
  {
  }

  predicate IsTerminal(s: State) {
    s.Success? || s.Failure?
  }

  /** An observer, named by a number, being called with a state. */
  datatype Notification = Notification(observer: nat, state: State)

  /** One notification per observer, in the order the observers were added. */
  function FanOut(observers: seq<nat>, s: State): (r: seq<Notification>)
    ensures |r| == |observers|
    ensures forall i :: 0 <= i < |observers| ==> r[i] == Notification(observers[i], s)
  {
    if |observers| == 0 then []
    else
      var k := |observers| - 1;
      FanOut(observers[..k], s) + [Notification(observers[k], s)]
  }

  /** Everything about a runner that its operations read or change. `fired`
      lists the completion handlers called, `published` the states announced to
      observers, `started` the indices of the steps run. */
  datatype RunnerView<S> = RunnerView(
    state: State,
    observers: seq<nat>,
    model: Model,
    steps: seq<S>,
    index: int,
    completion: Option<nat>,
    notifications: seq<Notification>,
    fired: seq<nat>,
    published: seq<State>,
    started: seq<int>)

  /** A new runner: not started, with an empty model. */
  function Initial<S>(steps: seq<S>, completion: Option<nat>): (v: RunnerView<S>)
    ensures v.state == NotStarted && v.model == map[] && v.index == 0 && v.steps == steps
    ensures v.published == [] && v.notifications == [] && v.fired == [] && v.started == []
  {
    RunnerView(NotStarted, [], map[], steps, 0, completion, [], [], [], [])
  }

  /** Assigning `state` (its `didSet`): observers hear of the new state, in
      order, only when it differs from the old one; a success or failure then
      calls the stored completion handler, if any, and forgets it. */
  function Assign<S>(v: RunnerView<S>, s: State): (r: RunnerView<S>)
    ensures r.state == s
    ensures r.observers == v.observers && r.model == v.model && r.steps == v.steps
    ensures r.index == v.index && r.started == v.started
    ensures SameState(s, v.state) ==> r.published == v.published && r.notifications == v.notifications
    ensures !SameState(s, v.state) ==>
      r.published == v.published + [s] && r.notifications == v.notifications + FanOut(v.observers, s)
    ensures IsTerminal(s) ==> r.completion.None?
    ensures IsTerminal(s) && v.completion.Some? ==> r.fired == v.fired + [v.completion.value]
    ensures !(IsTerminal(s) && v.completion.Some?) ==> r.fired == v.fired
    ensures !IsTerminal(s) ==> r.completion == v.completion
  {
    var changed := !SameState(s, v.state);
    var notifications := if changed then v.notifications + FanOut(v.observers, s) else v.notifications;
    var published := if changed then v.published + [s] else v.published;
    var fire := IsTerminal(s) && v.completion.Some?;
    var fired := if fire then v.fired + [v.completion.value] else v.fired;
    var completion := if fire then None else v.completion;
    v.(state := s, notifications := notifications, published := published, fired := fired, completion := completion)
  }

  /** `run(completion:)`: a given handler replaces the stored one; a step
      index outside the list fails the run with `incorrectStep`, otherwise the
      state becomes `inProgress(index)` and that step is started. */
  function RunSpec<S>(v: RunnerView<S>, completion: Option<nat>): (r: RunnerView<S>)
    ensures r.model == v.model && r.steps == v.steps && r.index == v.index
    ensures var stored := if completion.Some? then completion else v.completion;
      (0 <= v.index < |v.steps| ==> r.completion == stored && r.fired == v.fired) &&
      (!(0 <= v.index < |v.steps|) ==>
         r.completion.None? && r.fired == v.fired + (if stored.Some? then [stored.value] else []))
  {
    var v1 := if completion.Some? then v.(completion := completion) else v;
    if 0 <= v1.index < |v1.steps| then
      Assign(v1, InProgress(v1.index)).(started := v1.started + [v1.index])
    else
      Assign(v1, State.Failure(Scraper(IncorrectStep)))
  }

  /** The step's completion callback inside `run`: the model becomes the
      reported one, then the runner finishes, moves to the next step (or
      succeeds after the last), jumps, or fails. */
  function OnOutcome<S>(v: RunnerView<S>, outcome: SC.StepCompletionResult): (r: RunnerView<S>)
    ensures r.steps == v.steps
  {
    var v1 := v.(model := outcome.model);
    match outcome
    case Finish(_) => Assign(v1, State.Success)
    case Proceed(_) =>
      var v2 := v1.(index := v1.index + 1);
      if v2.index < |v2.steps| then RunSpec(v2, None) else Assign(v2, State.Success)
    case JumpToStep(n, _) => RunSpec(v1.(index := n), None)
    case Failure(e, _) => Assign(v1, State.Failure(e))
  }

  /** `run(steps:)`: back to `notStarted`, the new steps from the first one,
      keeping the model. */
  function RunStepsSpec<S>(v: RunnerView<S>, steps: seq<S>): (r: RunnerView<S>)
    ensures r.steps == steps && r.index == 0
  {
    RunSpec(Assign(v, NotStarted).(steps := steps, index := 0), None)
  }

  // ---- the step guard as written -----------------------------------------

  /** The guard `index < steps.count` that `run` is written with. */
  predicate GuardAsWritten(index: int, count: nat) {
    index < count
  }

  /** A run as the code is written: it either carries on, or reads the step
      list at an index outside it. */
  datatype WrittenRun<S> = Continued(view: RunnerView<S>) | ReadOutsideSteps(index: int)

  /** `run(completion:)` with its written guard: an index that passes it is
      used to read `steps[index]` before the step is started. */
  function RunAsWritten<S>(v: RunnerView<S>, completion: Option<nat>): (r: WrittenRun<S>)
    ensures r.ReadOutsideSteps? <==> v.index < 0
    ensures r.ReadOutsideSteps? ==> r.index == v.index
  {
    var v1 := if completion.Some? then v.(completion := completion) else v;
    if !GuardAsWritten(v1.index, |v1.steps|) then
      Continued(Assign(v1, State.Failure(Scraper(IncorrectStep))))
    else if v1.index < 0 then
      ReadOutsideSteps(v1.index)
    else
      Continued(Assign(v1, InProgress(v1.index)).(started := v1.started + [v1.index]))
  }

  /** The step's completion callback as written, re-entering the written `run`. */
  function OnOutcomeAsWritten<S>(v: RunnerView<S>, outcome: SC.StepCompletionResult): (r: WrittenRun<S>)
    ensures r.ReadOutsideSteps? ==> r.index < 0
  {
    var v1 := v.(model := outcome.model);
    match outcome
    case Finish(_) => Continued(Assign(v1, State.Success))
    case Proceed(_) =>
      var v2 := v1.(index := v1.index + 1);
      if v2.index < |v2.steps| then RunAsWritten(v2, None) else Continued(Assign(v2, State.Success))
    case JumpToStep(n, _) => RunAsWritten(v1.(index := n), None)
    case Failure(e, _) => Continued(Assign(v1, State.Failure(e)))
  }

  /** A jump to any negative index passes the written guard and reaches the
      read of `steps[n]` outside the list, where the corrected runner fails
      with `incorrectStep`. */
  lemma NegativeJumpReadsOutsideSteps<S>(v: RunnerView<S>, n: int, m: Model)
    requires n < 0
    ensures OnOutcomeAsWritten(v, SC.JumpToStep(n, m)) == ReadOutsideSteps(n)
    ensures OnOutcome(v, SC.JumpToStep(n, m)).state == State.Failure(Scraper(IncorrectStep))
  {
  }

  /** As long as no index is negative, the written runner and the corrected
      one take the same steps. */
  lemma WrittenRunAgreesOffNegative<S>(v: RunnerView<S>, completion: Option<nat>, outcome: SC.StepCompletionResult)
    requires 0 <= v.index
    requires outcome.JumpToStep? ==> 0 <= outcome.step
    ensures RunAsWritten(v, completion) == Continued(RunSpec(v, completion))
    ensures OnOutcomeAsWritten(v, outcome) == Continued(OnOutcome(v, outcome))
  {
  }

  // ---- what the operations guarantee -------------------------------------

  /** With no step at the current index, `run` fails with `incorrectStep` and
      starts nothing; the handler it was given, or else the stored one, is
      called and forgotten. */
  lemma RunOutOfRange<S>(v: RunnerView<S>, completion: Option<nat>)
    requires !(0 <= v.index < |v.steps|)
    ensures var r := RunSpec(v, completion);
      r.state == State.Failure(Scraper(IncorrectStep)) && r.started == v.started && r.model == v.model
    ensures var r := RunSpec(v, completion);
      var stored := if completion.Some? then completion else v.completion;
      r.completion.None? && r.fired == v.fired + (if stored.Some? then [stored.value] else [])
  {
  }

  /** With a step at the current index, `run` announces `inProgress(index)`
      before starting exactly that step; a given handler replaces the stored
      one, no handler keeps it, and none is called. */
  lemma RunInRange<S>(v: RunnerView<S>, completion: Option<nat>)
    requires 0 <= v.index < |v.steps|
    ensures var r := RunSpec(v, completion);
      r.state == InProgress(v.index) && r.started == v.started + [v.index] && r.model == v.model
    ensures var r := RunSpec(v, completion);
      r.completion == (if completion.Some? then completion else v.completion) && r.fired == v.fired
  {
  }

  /** Whatever the step reports, the runner's model becomes the reported one. */
  lemma OutcomeReplacesModel<S>(v: RunnerView<S>, outcome: SC.StepCompletionResult)
    ensures OnOutcome(v, outcome).model == SC.ModelOf(outcome)
  {
  }

  /** `proceed` moves to the next step, or succeeds after the last one. */
  lemma ProceedOutcome<S>(v: RunnerView<S>, m: Model)
    requires 0 <= v.index
    ensures var r := OnOutcome(v, SC.Proceed(m));
      r.index == v.index + 1 &&
      (v.index + 1 < |v.steps| ==> r.state == InProgress(v.index + 1) && r.started == v.started + [v.index + 1]) &&
      (v.index + 1 >= |v.steps| ==> r.state == State.Success && r.started == v.started)
  {
  }

  /** `finish` succeeds whatever steps remain, and starts none of them. */
  lemma FinishOutcome<S>(v: RunnerView<S>, m: Model)
    ensures var r := OnOutcome(v, SC.Finish(m));
      r.state == State.Success && r.started == v.started && r.index == v.index && r.completion.None?
  {
  }

  /** `failure(e)` fails with that very error and starts no further step. */
  lemma FailureOutcome<S>(v: RunnerView<S>, e: AnyError, m: Model)
    ensures var r := OnOutcome(v, SC.Failure(e, m));
      r.state == State.Failure(e) && r.started == v.started && r.completion.None?
  {
  }

  /** `jumpToStep(n)` runs step `n` when there is one; otherwise, negative `n`
      included, the run fails with `incorrectStep`, keeping the jumping step's
      model. */
  lemma JumpOutcome<S>(v: RunnerView<S>, n: int, m: Model)
    ensures var r := OnOutcome(v, SC.JumpToStep(n, m));
      r.index == n && r.model == m &&
      (0 <= n < |v.steps| ==> r.state == InProgress(n) && r.started == v.started + [n]) &&
      (!(0 <= n < |v.steps|) ==> r.state == State.Failure(Scraper(IncorrectStep)) && r.started == v.started)
  {
  }

  /** Jumping to the step already in progress runs it again but announces
      nothing, since the state does not change under the library's `==`. */
  lemma JumpToCurrentPublishesNothing<S>(v: RunnerView<S>, m: Model)
    requires v.state.InProgress? && 0 <= v.state.index < |v.steps|
    ensures var r := OnOutcome(v, SC.JumpToStep(v.state.index, m));
      r.published == v.published && r.notifications == v.notifications &&
      r.started == v.started + [v.state.index]
  {
  }

  /** Two failures in a row are announced once: the second error is not
      published. */
  lemma SecondFailureNotPublished<S>(v: RunnerView<S>, e: AnyError)
    requires v.state.Failure?
    ensures Assign(v, State.Failure(e)).published == v.published
    ensures Assign(v, State.Failure(e)).notifications == v.notifications
  {
  }

  /** The step callback does not look at the state: a report that reaches a
      run that has already ended still replaces the model, and a jump to an
      existing step starts that step again and announces `inProgress` anew,
      keeping the completion as it is. */
  lemma ReportAfterEnd<S>(v: RunnerView<S>, n: int, m: Model)
    requires IsTerminal(v.state) && 0 <= n < |v.steps|
    ensures var r := OnOutcome(v, SC.JumpToStep(n, m));
      r.model == m && r.index == n && r.state == InProgress(n) &&
      r.published == v.published + [InProgress(n)] && r.started == v.started + [n] &&
      r.notifications == v.notifications + FanOut(v.observers, InProgress(n)) &&
      r.completion == v.completion && r.fired == v.fired
  {
  }

  /** `run(steps:)` keeps the model; after a finished run the observers hear
      `notStarted` and then, when there are steps, `inProgress(0)`. */
  lemma RunStepsAfterEnd<S>(v: RunnerView<S>, steps: seq<S>)
    requires IsTerminal(v.state)
    ensures var r := RunStepsSpec(v, steps);
      r.model == v.model &&
      (|steps| > 0 ==> r.published == v.published + [NotStarted, InProgress(0)] && r.started == v.started + [0]) &&
      (|steps| == 0 ==> r.published == v.published + [NotStarted, State.Failure(Scraper(IncorrectStep))])
  {
    var v1 := Assign(v, NotStarted);
    assert v1.published == v.published + [NotStarted];
  }

  // ---- invariants --------------------------------------------------------

  /** The announced states never repeat under the library's `==`; the first
      one differs from `notStarted`, and the last one is the current state. */
  ghost predicate PublishedWellFormed<S>(v: RunnerView<S>) {
    var p := v.published;
    (forall i :: 0 < i < |p| ==> !SameState(p[i - 1], p[i])) &&
    (|p| == 0 ==> v.state == NotStarted) &&
    (|p| > 0 ==> !SameState(p[0], NotStarted) && SameState(p[|p| - 1], v.state))
  }

  /** Each completion handler is called at most once, and the stored one has
      not been called yet. */
  ghost predicate CompletionOnce<S>(v: RunnerView<S>) {
    (forall i, j :: 0 <= i < j < |v.fired| ==> v.fired[i] != v.fired[j]) &&
    (v.completion.Some? ==> v.completion.value !in v.fired)
  }

  ghost predicate Valid<S>(v: RunnerView<S>) {
    PublishedWellFormed(v) && CompletionOnce(v)
  }

  lemma InitialValid<S>(steps: seq<S>, completion: Option<nat>)
    ensures Valid(Initial(steps, completion))
  {
  }

  lemma {:induction false} AssignValid<S>(v: RunnerView<S>, s: State)
    requires Valid(v)
    ensures Valid(Assign(v, s))
  {
    var r := Assign(v, s);
    var p := v.published;
    if !SameState(s, v.state) {
      assert r.published == p + [s];
      if |p| == 0 {
        assert v.state == NotStarted;
      } else {
        assert SameState(p[|p| - 1], v.state);
        assert !SameState(p[|p| - 1], s);
      }
    }
    if IsTerminal(s) && v.completion.Some? {
      assert r.fired == v.fired + [v.completion.value];
    }
  }

  lemma {:induction false} RunValid<S>(v: RunnerView<S>, completion: Option<nat>)
    requires Valid(v) && (completion.Some? ==> completion.value !in v.fired)
    ensures Valid(RunSpec(v, completion))
  {
    var v1 := if completion.Some? then v.(completion := completion) else v;
    assert Valid(v1);
    if 0 <= v1.index < |v1.steps| {
      AssignValid(v1, InProgress(v1.index));
    } else {
      AssignValid(v1, State.Failure(Scraper(IncorrectStep)));
    }
  }

  lemma {:induction false} OutcomeValid<S>(v: RunnerView<S>, outcome: SC.StepCompletionResult)
    requires Valid(v)
    ensures Valid(OnOutcome(v, outcome))
  {
    var v1 := v.(model := outcome.model);
    assert Valid(v1);
    match outcome
    case Finish(_) => AssignValid(v1, State.Success);
    case Proceed(_) =>
      var v2 := v1.(index := v1.index + 1);
      assert Valid(v2);
      if v2.index < |v2.steps| { RunValid(v2, None); } else { AssignValid(v2, State.Success); }
    case JumpToStep(n, _) =>
      assert Valid(v1.(index := n));
      RunValid(v1.(index := n), None);
    case Failure(e, _) => AssignValid(v1, State.Failure(e));
  }

  lemma {:induction false} RunStepsValid<S>(v: RunnerView<S>, steps: seq<S>)
    requires Valid(v)
    ensures Valid(RunStepsSpec(v, steps))
  {
    AssignValid(v, NotStarted);
    var v1 := Assign(v, NotStarted).(steps := steps, index := 0);
    assert Valid(v1);
    RunValid(v1, None);
  }

  // ---- the runner --------------------------------------------------------

  /** `StepRunner`: observers and completion handlers are named by numbers the
      caller supplies; what they are called with is recorded in
      `notifications` and `fired`. */
  class StepRunner<S> {
    var state: State
    var stateObservers: seq<nat>
    var model: Model
    var steps: seq<S>
    var index: int
    var completion: Option<nat>
    var notifications: seq<Notification>
    var fired: seq<nat>
    ghost var published: seq<State>
    /** The indices of the steps started, in order. */
    var started: seq<int>

    ghost function View(): RunnerView<S>
      reads this
    {
      RunnerView(state, stateObservers, model, steps, index, completion, notifications, fired, published, started)
    }

    constructor(steps: seq<S>, completion: Option<nat>)
      ensures View() == Initial(steps, completion)
    {
      state := NotStarted;
      stateObservers := [];
      model := map[];
      this.steps := steps;
      index := 0;
      this.completion := completion;
      notifications := [];
      fired := [];
      published := [];
      started := [];
    }

    /** `stateObservers.append(observer)` */
    method AddObserver(observer: nat)
      modifies this
      ensures View() == old(View()).(observers := old(stateObservers) + [observer])
    {
      stateObservers := stateObservers + [observer];
    }

    /** The `state` setter with its `didSet`. */
    method SetState(s: State)
      modifies this
      ensures View() == Assign(old(View()), s)
    {
      var oldValue := state;
      state := s;
      if !SameState(state, oldValue) {
        var observers, told := stateObservers, notifications;
        for i := 0 to |observers|
          invariant told == notifications + FanOut(observers[..i], s)
        {
          assert observers[..i + 1][..i] == observers[..i];
          told := told + [Notification(observers[i], s)];
        }
        assert observers[..|observers|] == observers;
        notifications := told;
        published := published + [s];
      }
      if IsTerminal(state) && completion.Some? {
        fired := fired + [completion.value];
        completion := None;
      }
    }

    /** `run(completion:)` up to starting the step; the step's report comes
        back through `OnStepResult`. */
    method Run(completion: Option<nat>)
      modifies this
      ensures View() == RunSpec(old(View()), completion)
    {
      if completion.Some? {
        this.completion := completion;
      }
      if !(0 <= index < |steps|) {
        SetState(State.Failure(Scraper(IncorrectStep)));
        return;
      }
      SetState(InProgress(index));
      started := started + [index];
    }

    /** The completion callback a started step calls with its report. */
    method OnStepResult(outcome: SC.StepCompletionResult)
      modifies this
      ensures View() == OnOutcome(old(View()), outcome)
    {
      model := outcome.model;
      match outcome
      case Finish(_) =>
        SetState(State.Success);
      case Proceed(_) =>
        index := index + 1;
        if !(index < |steps|) {
          SetState(State.Success);
          return;
        }
        Run(None);
      case JumpToStep(nextStep, _) =>
        index := nextStep;
        Run(None);
      case Failure(error, _) =>
        SetState(State.Failure(error));
    }

    /** `run(steps:)` */
    method RunSteps(steps: seq<S>)
      modifies this
      ensures View() == RunStepsSpec(old(View()), steps)
    {
      SetState(NotStarted);
      this.steps := steps;
      index := 0;
      Run(None);
    }
  }
}
