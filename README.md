# SwiftScraper step pipeline, modelled in Dafny

SwiftScraper drives a web view through an ordered list of *steps* that share a
JSON *model* dictionary:

- a step loads a page, runs a script, waits for a condition or processes the
  model;
- it then reports a *step completion result*: proceed, jump to a step, finish,
  or fail, always together with the model to hand on;
- the *step runner* applies each report, publishes its state
  (`notStarted`, `inProgress(i)`, `success`, `failure(e)`) to its observers,
  and calls a one-shot completion handler when the run ends;
- script calls are written as JavaScript text `Module.fn(arg1,arg2)` by a call
  generator.

## Modules

| module | file | what it holds |
|---|---|---|
| `Wrappers` | wrappers.dfy | `Option` and `Result` |
| `Json` | json.dfy | `Value`, `Member`, `Model`, `Lookup`, what JSONSerialization can write (`Encodable`, `IsValidJsonObject`), the compact JSON text `Text` |
| `JsonParse` | json_parse.dfy | a reference reader for that text and the argument list of a call; the round trips of the generator are proved against it |
| `ScraperErrors` | errors.dfy | `SwiftScraperError`, host errors (`NsError`), `errorDescription` |
| `JavaScriptGenerator` | generator.dfy | the current, throwing call generator |
| `LegacyJavaScriptGenerator` | legacy_generator.dfy | the older generator, which returns an optional text |
| `StepCompletion` | step_completion.dfy | `StepCompletionResult` and its `model` |
| `StepFlow` | step_flow.dfy | `StepFlowResult` and its conversion to a step result |
| `Browser` | browser.dfy | classification of script evaluations; a class with the navigation and asynchronous callback slots and the delegate events |
| `Steps` | steps.dfy | the step kinds and what each reports for given browser answers |
| `WaitForCondition` | wait_for_condition.dfy | the polling decision and a class for the polling step |
| `Runner` | step_runner.dfy | the runner's behaviour as functions on a `RunnerView`, the invariants it keeps, and a class `StepRunner` proved to agree with them |
| `Pipeline` | pipeline.dfy | steps and runner together (`Drive`), whole-run invariants, and the pipelines the library's tests describe |

Callbacks, observers and completion handlers are named by numbers that the
caller supplies. What they are called with is recorded in logs:

- `notifications`, `published` and `fired` in the runner;
- `deliveries` in the browser and in the polling step.

The web view is not modelled. Its answers are inputs:

- an `EvaluationAnswer` for a script;
- a delegate event for a navigation;
- a `HostAnswers` record for one step of a pipeline;
- a clock reading for a poll.

Where the library's description and its code differ, the model follows the
code:

- The asynchronous callback slot is not cleared when a script message is
  delivered. A later message reaches the same callback again
  (Sources/Browser.swift:134-141).
- The error tests expect `"A JavaScript error occurred: message1"`. The enum
  produces the longer sentence it is written with
  (`ScraperErrors.JavascriptDescriptionDiffersFromTestExpectation`).
- The error tests also name two cases the enum does not have.

## Model

| member | source | states |
|---|---|---|
| Json.Lookup | Sources/Steps/PageChangeStep.swift:42 | the value under a key, or null when the key is missing |
| JsonParse.IntRoundTrip | Sources/SwiftScraper/JavaScriptGenerator.swift:28-29 | the decimal text of any integer, negative ones included, reads back as that integer when no digit follows it |
| JsonParse.StringRoundTrip | Sources/SwiftScraper/JavaScriptGenerator.swift:32-34 | an escaped JSON string reads back as the original string, for every string |
| JsonParse.ValueRoundTrip | Sources/SwiftScraper/JavaScriptGenerator.swift:32-34 | the JSON text of every encodable value reads back as that value, with the rest of the input untouched |
| JsonParse.ArrayRoundTrip | Sources/SwiftScraper/JavaScriptGenerator.swift:32-34 | the text of an encodable array reads back as the same items, in order |
| JsonParse.ObjectRoundTrip | Sources/SwiftScraper/JavaScriptGenerator.swift:32-34 | the text of an encodable dictionary reads back as the same members, in the order written |
| JsonParse.ArgumentSectionRoundTrip | Sources/SwiftScraper/JavaScriptGenerator.swift:18-19 | comma-joined JSON texts of encodable values read back as exactly those values, in order |
| ScraperErrors.ErrorDescription | Sources/SwiftScraperError.swift:31-40 | every case has a description; a JavaScript error's is the fixed prefix followed by its message |
| ScraperErrors.LocalizedDescription | Sources/SwiftScraperError.swift:31-40 | a library error describes itself by `errorDescription`; a host error keeps its own description |
| ScraperErrors.DescriptionLength | Sources/SwiftScraperError.swift:33-38 | the length of every description, which differs between the fixed sentences |
| ScraperErrors.DescriptionDistinguishes | Sources/SwiftScraperError.swift:33-38 | two errors have the same description exactly when they are equal, or both are navigation failures |
| ScraperErrors.JavascriptDescriptionIsNotFixed | Sources/SwiftScraperError.swift:35 | a JavaScript error's description is none of the fixed sentences, whatever its message |
| ScraperErrors.FixedDescriptionsDiffer | Sources/SwiftScraperError.swift:33-38 | the fixed sentences of different cases differ; only navigation failures share one |
| ScraperErrors.NavigationFailedDescriptionIgnoresCause | Sources/SwiftScraperError.swift:36 | a navigation failure has the same description whatever error it wraps |
| ScraperErrors.JavascriptDescriptionShowsMessage | Sources/SwiftScraperError.swift:35 | a JavaScript error's description splits into the prefix and exactly its message |
| ScraperErrors.JavascriptDescriptionDiffersFromTestExpectation | Tests/SwiftScraperTests/SwiftScraperErrorTests.swift:15-18 | the description of `javascriptError("message1")` is not the sentence the test expects |
| JavaScriptGenerator.Stringify | Sources/SwiftScraper/JavaScriptGenerator.swift:23-37 | a parameter is written exactly when JSONSerialization could write it; otherwise the error is `parameterSerialization`; a string is written between quotes with no escaping |
| JavaScriptGenerator.StringifyAll | Sources/SwiftScraper/JavaScriptGenerator.swift:18 | the texts of all parameters, one per parameter in order, or `parameterSerialization` as soon as one cannot be written |
| JavaScriptGenerator.GenerateScript | Sources/SwiftScraper/JavaScriptGenerator.swift:13-21 | no parameters give `Module.fn()`; the call is written exactly when every parameter can be; otherwise it throws `parameterSerialization` |
| JavaScriptGenerator.RawStringRoundTrip | Sources/SwiftScraper/JavaScriptGenerator.swift:24-25 | a string with no quote, backslash or control character, put between quotes, reads back as itself |
| JavaScriptGenerator.StringifyIsJsonText | Sources/SwiftScraper/JavaScriptGenerator.swift:26-34 | every writable parameter but a string is written as its JSON text (`true`/`false`, decimal, `null`, compact array or dictionary) |
| JavaScriptGenerator.ArgumentRoundTrip | Sources/SwiftScraper/JavaScriptGenerator.swift:23-35 | one safe parameter's text reads back as that parameter |
| JavaScriptGenerator.JoinedArgumentsRoundTrip | Sources/SwiftScraper/JavaScriptGenerator.swift:18-19 | the comma-joined texts of safe parameters read back as exactly the parameters, in order |
| JavaScriptGenerator.CallRoundTrip | Sources/SwiftScraper/JavaScriptGenerator.swift:13-21 | the call starts with `Module.fn(`, ends with `)`, and its argument text reads back as exactly the parameters, in order |
| JavaScriptGenerator.QuoteInStringBreaksArgument | Sources/SwiftScraper/JavaScriptGenerator.swift:24-25 | a string holding a quote is written unescaped, and its argument no longer reads back as one string |
| LegacyJavaScriptGenerator.Stringify | Sources/JavaScriptGenerator.swift:25-38 | a parameter is written exactly when it is a string, bool, number, array or dictionary that JSONSerialization can write; null gives nothing |
| LegacyJavaScriptGenerator.CompactMap | Sources/JavaScriptGenerator.swift:18 | the texts of the writable parameters in order: no more than the parameters, and as many exactly when all can be written |
| LegacyJavaScriptGenerator.GenerateScript | Sources/JavaScriptGenerator.swift:13-23 | no parameters give `Module.fn()`; the result is nothing exactly when some parameter cannot be written |
| LegacyJavaScriptGenerator.StringifyAgrees | Sources/JavaScriptGenerator.swift:25-38 | except for null, the older generator writes a parameter exactly when the newer one does, and writes the same text |
| LegacyJavaScriptGenerator.GeneratorsAgreeWithoutNull | Sources/JavaScriptGenerator.swift:13-23 | without a null parameter, both generators write the same call, and fail on the same inputs |
| LegacyJavaScriptGenerator.NullParameterDiffers | Sources/JavaScriptGenerator.swift:32-37 | with a null parameter, the older generator gives nothing while the newer writes `null` |
| StepCompletion.ModelOf | Sources/SwiftScraper/Steps/StepCompletionCallback.swift:28-35 | every case hands on the model it carries, whatever its index or error |
| StepFlow.Convert | Sources/SwiftScraper/Steps/StepFlowResult.swift:26-37 | the converted result carries the given model and keeps the instruction, with its index or error |
| StepFlow.ConvertRecovers | Sources/SwiftScraper/Steps/StepFlowResult.swift:26-37 | every step result is the conversion of its own instruction and model, so conversion neither loses nor adds anything |
| Browser.ExceptionMessage | Sources/Browser.swift:180 | the message WebKit attaches to a script exception, or else the error's localised description |
| Browser.ClassifyEvaluation | Sources/Browser.swift:176-191 | no error gives success with the response; a script exception gives a JavaScript error with its message; any other error gives a JavaScript error with its description |
| Browser.ScriptResponse | Sources/Browser.swift:170-192 | a call that cannot be generated fails with `parameterSerialization`; otherwise the evaluation is classified |
| Browser.ScriptResponseCharacterised | Sources/Browser.swift:170-192 | a script succeeds exactly when every parameter can be written and no error is reported, and then returns the response; it fails only with a serialisation or JavaScript error |
| Browser.Browser.Load | Sources/Browser.swift:164-167 | the completion waits in the navigation slot and the path is loaded; nothing is delivered |
| Browser.Browser.CallNavigationCompletion | Sources/Browser.swift:123-130 | the slot is emptied; a held callback receives the result once; an empty slot does nothing |
| Browser.Browser.DidFinish | Sources/Browser.swift:102-105 | a waiting navigation callback receives success, and the slot is emptied |
| Browser.Browser.DidFailProvisionalNavigation | Sources/Browser.swift:107-111 | a waiting navigation callback receives `navigationFailed` with the error |
| Browser.Browser.DidFail | Sources/Browser.swift:113-121 | a cancelled navigation changes nothing; any other error delivers `navigationFailed` and empties the slot |
| Browser.Browser.DidReceiveMessage | Sources/Browser.swift:134-141 | a message for another handler is ignored; a matching message hands success with its body to the asynchronous slot, which keeps its callback |
| Browser.Browser.RunScript | Sources/Browser.swift:170-192 | the result is `ScriptResponse`; a script is evaluated only when it could be generated; no slot changes |
| Browser.Browser.RunPageChangeScript | Sources/Browser.swift:195-203 | the completion waits in the navigation slot; a call that cannot be generated hands it `parameterSerialization` at once and empties the slot; otherwise the script is evaluated and its answer waits, with the completion it captured |
| Browser.Browser.RunAsyncScript | Sources/Browser.swift:206-214 | the completion waits in the asynchronous slot; a call that cannot be generated hands it `parameterSerialization` at once and empties the slot; otherwise the script is evaluated and its answer waits, with the completion it captured |
| Browser.Browser.EvaluationCompleted | Sources/Browser.swift:197-213 | the web view answers one waiting evaluation, before or after any delegate event or script message; a success is dropped; a failure is handed to the captured completion and the slot is emptied, whatever it holds by then |
| Browser.Browser.EvaluationCompletedOnce | Sources/Browser.swift:123-130 | the corrected answer: a failing page-change evaluation goes through the navigation slot, reaching its completion only while the slot still holds it, so every navigation callback hears at most once |
| Browser.PageChangeDeliveredTwice | Sources/Browser.swift:195-203 | a page-change script whose page finishes loading and whose evaluation then fails hands its one completion success and then the failure |
| Browser.PageChangeDeliveredOnce | Sources/Browser.swift:123-130 | the same events with the corrected answer hand the completion only the success |
| Browser.AsyncSuccessThenFailure | Sources/Browser.swift:206-214 | an asynchronous script that posts its message and whose evaluation then fails hands its completion the message's body and then the failure |
| Steps.LookupAll | Sources/Steps/ScriptStep.swift:54 | one value per key, in order: the model's value, or null where the key is missing |
| Steps.ResolveParams | Sources/Steps/ScriptStep.swift:50-55 | the fixed parameters when no keys are named; otherwise the model's values under the keys, null where missing |
| Steps.AssertNavigation | Sources/SwiftScraper/Steps/Common/NavigableStep.swift:25-38 | with no assertion the step proceeds without a script; otherwise only a `true` response proceeds, and anything else, a script error included, is `contentUnexpected`; the model is unchanged |
| Steps.AfterNavigation | Sources/SwiftScraper/Steps/OpenPageStep.swift:26-33 | a failed navigation reports its error with no assertion; a succeeded one reports the assertion's outcome |
| Steps.OpenPageRun | Sources/SwiftScraper/Steps/OpenPageStep.swift:25-34 | the step loads exactly its path first and never changes the model |
| Steps.PageChangeRun | Sources/Steps/PageChangeStep.swift:37-52 | the step runs its script with the resolved parameters on the page-change channel first and never changes the model |
| Steps.NavigationStepCharacterised | Sources/Steps/PageChangeStep.swift:44-51 | a navigation step proceeds exactly when the navigation succeeded and the assertion, if any, answered `true`; otherwise it fails with the navigation's error or `contentUnexpected`; the assertion runs only after a successful navigation |
| Steps.MakeScriptStep | Sources/Steps/ScriptStep.swift:38-47 | the step keeps its function name, parameters, keys and handler, on the synchronous channel |
| Steps.MakeAsyncScriptStep | Sources/SwiftScraper/Steps/AsyncScriptStep.swift:27-38 | the stored parameters are exactly the ones given, not nested; keys and handler are passed on unchanged |
| Steps.ScriptRun | Sources/Steps/ScriptStep.swift:49-71 | one call with the resolved parameters; a failed script reports its error with the original model; otherwise the handler's instruction is reported with the handler's edited model |
| Steps.AsyncScriptLikeScript | Sources/SwiftScraper/Steps/AsyncScriptStep.swift:40-42 | the asynchronous step reports the same as the synchronous one; only the channel differs |
| Steps.HandlerFailureKeepsEdits | Sources/Steps/ScriptStep.swift:61-64 | a handler that reports failure still hands on its edits to the model |
| Steps.ProcessRun | Sources/Steps/ProcessStep.swift:36-40 | the browser is not used; the handler's instruction is reported with the handler's edited model |
| WaitForCondition.PollDecision | Sources/Steps/WaitForConditionStep.swift:52-66 | every decision carries the model the step was run with |
| WaitForCondition.PollDecisionCharacterised | Sources/Steps/WaitForConditionStep.swift:52-66 | the step proceeds exactly on `true`; it keeps polling exactly on any other answer while the elapsed time is at most the timeout; strictly more time means `timeout`; a script error ends it with that error |
| WaitForCondition.NoTimeoutAtTheLimit | Sources/Steps/WaitForConditionStep.swift:58 | at exactly the timeout the step still waits, and one unit later it times out |
| WaitForCondition.WaitForConditionStep.constructor | Sources/Steps/WaitForConditionStep.swift:32-35 | nothing is recorded and no completion is pending |
| WaitForCondition.WaitForConditionStep.Run | Sources/Steps/WaitForConditionStep.swift:37-43 | the start time, browser, model and completion are recorded, and polling is scheduled |
| WaitForCondition.WaitForConditionStep.Reset | Sources/Steps/WaitForConditionStep.swift:70-77 | the timer, start time, browser, model and completion are all cleared |
| WaitForCondition.WaitForConditionStep.HandleTimer | Sources/Steps/WaitForConditionStep.swift:45-68 | a tick with nothing recorded does nothing; otherwise a decisive answer resets the step and calls the stored completion once with the decision; no completion is called twice |
| Runner.SameStateIsEqualityUpToErrors | Sources/SwiftScraper/StepRunner.swift:45-58 | the library's `==` on states is value equality, except that all failures are equal |
| Runner.FanOut | Sources/SwiftScraper/StepRunner.swift:77-79 | each observer is called once with the state, in the order the observers were added |
| Runner.Initial | Sources/SwiftScraper/StepRunner.swift:97-121 | a new runner is not started, at index 0, with an empty model and nothing published or called |
| Runner.Assign | Sources/SwiftScraper/StepRunner.swift:74-91 | observers hear of a new state only when it differs under the library's `==`; a success or failure calls the stored completion once and forgets it; nothing else changes |
| Runner.RunSpec | Sources/SwiftScraper/StepRunner.swift:124-133 | `run(completion:)` keeps the model, the steps and the index; with a step at the index, a given completion replaces the stored one, no completion keeps it, and none is called; with no step there, the given completion, or else the stored one, is called once and forgotten |
| Runner.OnOutcome | Sources/SwiftScraper/StepRunner.swift:134-154 | the step's callback keeps the step list (each report is stated by the `...Outcome` lemmas below) |
| Runner.RunStepsSpec | Sources/SwiftScraper/StepRunner.swift:161-166 | `run(steps:)` runs the new steps from the first one (what it publishes is stated by `RunStepsAfterEnd`) |
| Runner.RunAsWritten | Sources/SwiftScraper/StepRunner.swift:124-133 | `run` with the guard as written reaches the read of `steps[index]` outside the list exactly when the index is negative |
| Runner.OnOutcomeAsWritten | Sources/SwiftScraper/StepRunner.swift:134-154 | the written callback can reach a read outside the list only at a negative index |
| Runner.NegativeJumpReadsOutsideSteps | Sources/SwiftScraper/StepRunner.swift:128-132 | for every runner, any `jumpToStep(n)` with `n < 0` passes the written guard and reads `steps[n]`, while the corrected runner fails with `incorrectStep` |
| Runner.WrittenRunAgreesOffNegative | Sources/SwiftScraper/StepRunner.swift:124-154 | at a non-negative index, and for any report but a negative jump, the written runner and the corrected one take the same step |
| Runner.RunOutOfRange | Sources/SwiftScraper/StepRunner.swift:128-131 | with no step at the index, the run fails with `incorrectStep`, starts nothing and keeps the model; the given completion, or else the stored one, is called once and forgotten |
| Runner.RunInRange | Sources/SwiftScraper/StepRunner.swift:132-133 | with a step at the index, the state becomes `inProgress(index)` and exactly that step is started; a given completion replaces the stored one, no completion keeps it, and none is called |
| Runner.OutcomeReplacesModel | Sources/SwiftScraper/StepRunner.swift:138 | whatever the report, the runner's model becomes the reported one |
| Runner.ProceedOutcome | Sources/SwiftScraper/StepRunner.swift:142-148 | `proceed` starts the next step, or succeeds after the last without starting any |
| Runner.FinishOutcome | Sources/SwiftScraper/StepRunner.swift:140-141 | `finish` succeeds whatever steps remain, starts none and calls the completion |
| Runner.FailureOutcome | Sources/SwiftScraper/StepRunner.swift:152-153 | `failure(e)` fails with that very error and starts no further step |
| Runner.JumpOutcome | Sources/SwiftScraper/StepRunner.swift:149-151 | `jumpToStep(n)` starts step `n` when it exists; otherwise, negative `n` included, the run fails with `incorrectStep`, keeping the jumping step's model |
| Runner.JumpToCurrentPublishesNothing | Sources/SwiftScraper/StepRunner.swift:76-80 | a jump to the step in progress starts it again but announces nothing |
| Runner.SecondFailureNotPublished | Sources/SwiftScraper/StepRunner.swift:52-53 | a failure after a failure is not announced again |
| Runner.ReportAfterEnd | Sources/SwiftScraper/StepRunner.swift:134-151 | the callback has no guard on the state: a report reaching an ended run replaces the model, and a jump to an existing step starts it again and announces `inProgress` anew |
| Runner.RunStepsAfterEnd | Sources/SwiftScraper/StepRunner.swift:161-166 | after a finished run the observers hear `notStarted` and then `inProgress(0)`, or `incorrectStep` for no steps; the model is kept |
| Runner.InitialValid | Sources/SwiftScraper/StepRunner.swift:111-121 | a new runner satisfies the invariant: no state announced twice in a row, and no completion called twice |
| Runner.AssignValid | Sources/SwiftScraper/StepRunner.swift:74-91 | assigning any state keeps the invariant |
| Runner.RunValid | Sources/SwiftScraper/StepRunner.swift:124-133 | a run keeps the invariant when any given completion has not been called yet |
| Runner.OutcomeValid | Sources/SwiftScraper/StepRunner.swift:134-154 | applying any report keeps the invariant |
| Runner.RunStepsValid | Sources/SwiftScraper/StepRunner.swift:161-166 | re-running with new steps keeps the invariant |
| Runner.StepRunner.constructor | Sources/SwiftScraper/StepRunner.swift:111-121 | the runner's state is `Initial(steps, completion)` |
| Runner.StepRunner.AddObserver | Sources/SwiftScraper/StepRunner.swift:94 | the observer is added last; nothing else changes |
| Runner.StepRunner.SetState | Sources/SwiftScraper/StepRunner.swift:74-91 | the new state is `Assign` of the old one: the loop calls every observer in order |
| Runner.StepRunner.Run | Sources/SwiftScraper/StepRunner.swift:124-133 | the new state is `RunSpec` of the old one |
| Runner.StepRunner.OnStepResult | Sources/SwiftScraper/StepRunner.swift:134-154 | the new state is `OnOutcome` of the old one |
| Runner.StepRunner.RunSteps | Sources/SwiftScraper/StepRunner.swift:161-166 | the new state is `RunStepsSpec` of the old one |
| Pipeline.Perform | Sources/SwiftScraper/StepRunner.swift:134 | a process step uses no browser; a navigation step keeps the model; a failed script reports its error with the model it was given |
| Pipeline.Drive | Sources/SwiftScraper/StepRunner.swift:132-154 | driving a run never changes its steps (what it publishes is stated by `DriveObserved`, `DriveValid` and the scenarios) |
| Pipeline.DriveObserved | Sources/SwiftScraper/StepRunner.swift:76-80 | however the steps report, only existing steps are started, and the observer hears exactly the published states, in order |
| Pipeline.DriveValid | Sources/SwiftScraper/StepRunner.swift:81-86 | however the steps report, no state is announced twice in a row and no completion is called twice |
| Pipeline.DriveStopsAtEnd | Sources/SwiftScraper/StepRunner.swift:132-134 | `Drive` performs only a step that `run` has started and that has not yet reported, so it hands no report to a run that has ended; what a report that does reach an ended runner does is `Runner.ReportAfterEnd` |
| Pipeline.OpenPageOnlyScenario | Tests/SwiftScraperTests/Steps/OpenPageStepTests.swift:6-15 | one page that loads and passes its assertion publishes `[inProgress(0), success]`, the observer hears both, and the completion is called once |
| Pipeline.FinishEarlyScenario | Tests/SwiftScraperTests/Steps/ProcessStepTests.swift:39-54 | `finish` from the second step publishes `[inProgress(0), inProgress(1), success]`, and later steps never start |
| Pipeline.FailEarlyScenario | Tests/SwiftScraperTests/Steps/ProcessStepTests.swift:56-81 | `failure(e)` from the second step publishes and ends in `failure(e)` with that very error, starts no later step, and keeps the step's edit |
| Pipeline.SkipStepScenario | Tests/SwiftScraperTests/Steps/ProcessStepTests.swift:83-105 | `jumpToStep(3)` from the second step publishes `[inProgress(0), inProgress(1), inProgress(3), success]` |
| Pipeline.SkipToInvalidStepScenario | Tests/SwiftScraperTests/Steps/ProcessStepTests.swift:107-131 | `jumpToStep(4)` in four steps fails with `incorrectStep`, keeps the jumping step's edit and calls the completion once |
| Pipeline.AsyncScriptScenario | Tests/SwiftScraperTests/Steps/AsyncScriptStepTests.swift:6-20 | an asynchronous step after a page, answered with the expected body, publishes `[inProgress(0), inProgress(1), success]` |
| Pipeline.ReuseScenario | Tests/SwiftScraperTests/StepRunnerTests.swift:771-814 | re-running a finished runner publishes `notStarted` and then the new run's states; the key the first run stored is still in the final model, beside the new steps' keys |

## Left out

- WebKit plumbing: creating the web view, injecting the scripts, loading resource bundles and `insertIntoView`. The web view's answers are inputs.
- The repeating `Timer` and its 0.1 s interval. Each tick is a call of `HandleTimer` with a clock reading.
- `WaitStep`. It is only a delay before `proceed(model)`.
- Floating point. `Double` parameters and their text, and `TimeInterval` arithmetic, are left out. Numbers are unbounded integers, and time is an integer clock.
- Dictionary key order. JSONSerialization's order is unspecified, so dictionaries are written in the order their members are listed.
- NSNumber bridging is not modelled, so a Bool and an Int are always distinct values.
- The `[weak self]` early returns. Runners, browsers and steps are assumed to stay alive.
- Concurrency. Events arrive one at a time, so overlapping polls and re-entrant delegate calls are not modelled. The answer of a page-change or asynchronous script is an event of its own (`Browser.Browser.EvaluationCompleted`) and may come in either order with the others.
- Pipeline.Drive: hands no report to a run that has ended. A late report from the kept asynchronous callback (Sources/Browser.swift:140) is not driven; `Runner.ReportAfterEnd` states what it does to the runner.
- The steps hear one navigation result each. `Steps` and `Pipeline` take one answer per browser request, as the corrected `Browser.Browser.EvaluationCompletedOnce` gives; the second result the code as written can hand a page-change step is not driven.
- The synchronous recursion by which a step's report starts the next step. `Pipeline.Drive` applies one report per answer it is given, so a jump loop (Tests/SwiftScraperTests/Steps/ProcessStepTests.swift:133-171) runs only as long as the answers last.
- Interleaving of the logs. Observer notifications and completion calls go into separate logs, so their relative order is not recorded.
- Closures stand for observers and completion callbacks. Each one is a number, and calling it is a log entry.
- Superseded copies. `Sources/StepRunner.swift`, `Sources/Steps/AsyncScriptStep.swift`, `Sources/Steps/NavigableStep.swift` and `Sources/Steps/OpenPageStep.swift` are older versions of files above and are not part of this model.
- Runner.ProceedOutcome: requires `0 <= index`. A runner reaches a negative index only through the jump that the corrected guard turns into a failure.
- WaitForCondition.WaitForConditionStep.Run: does not model that the source leaves an earlier timer scheduled when `run` is called again before a reset.
- Browser.Browser.DidReceiveMessage: keeps the asynchronous callback after delivery, as the code does.
- Pipeline.ReuseScenario: fixes its own steps. The first run is a page and a step that stores a key, and the second is three processing steps, so the page content the test reads back is not modelled.
- The pipeline scenarios fix only the steps the test runs. The steps the tests mark as never executed are left unconstrained.

## Findings

| source | as written | input that shows it | evidently intended | confidence | as-written member | corrected member |
|---|---|---|---|---|---|---|
| Sources/SwiftScraper/StepRunner.swift:128 | `guard index < steps.count`, so a negative index passes, and `steps[index]` is read at line 132 | a step reports `jumpToStep(-1)` (line 150 sets `index = -1`) | `0 <= index < steps.count`: the run fails with `incorrectStep` | not executed | Runner.NegativeJumpReadsOutsideSteps | Runner.JumpOutcome |
| Sources/Browser.swift:197-202 | a failing evaluation calls the captured `completion` directly and then empties the slot, whatever it holds | a page-change script whose page finishes loading (line 104 calls the completion through the slot) and whose evaluation then fails, for instance because the script throws after starting the navigation | the one-shot navigation slot of lines 123-130: each navigation completion is called once | not executed | Browser.PageChangeDeliveredTwice | Browser.Browser.EvaluationCompletedOnce |
