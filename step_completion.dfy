/** What a step reports when it is done: the control-flow instruction for the
    runner together with the model to hand on. */
module StepCompletion {
  import opened Json
  import opened ScraperErrors

  /** `StepCompletionResult`. */
  datatype StepCompletionResult =
    | Proceed(model: Model)
    | JumpToStep(step: int, model: Model)
    | Finish(model: Model)
    | Failure(error: AnyError, model: Model)

  /** The `model` accessor: the model every case carries. */
  function ModelOf(r: StepCompletionResult): (m: Model)
    ensures m == r.model
  {
    match r
    case Proceed(model) => model
    case Finish(model) => model
    case JumpToStep(_, model) => model
    case Failure(_, model) => model
  }
}
