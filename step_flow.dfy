/** The instruction a user handler returns, without a model, and its
    conversion to a step result once the model is known. */
module StepFlow {
  import opened Json
  import opened ScraperErrors
  import SC = StepCompletion

  /** `StepFlowResult`. */
  datatype StepFlowResult =
    | Proceed
    | JumpToStep(step: int)
    | Finish
    | Failure(error: AnyError)

  /** The instruction part of a step result, forgetting its model. */
  function Directive(r: SC.StepCompletionResult): StepFlowResult {
    match r
    case Proceed(_) => Proceed
    case JumpToStep(n, _) => JumpToStep(n)
    case Finish(_) => Finish
    case Failure(e, _) => Failure(e)
  }

  /** `convertToStepCompletionResult(with:)`: the same instruction, with the
      given model attached. */
  function Convert(f: StepFlowResult, model: Model): (r: SC.StepCompletionResult)
    ensures SC.ModelOf(r) == model
    ensures Directive(r) == f
  {
    match f
    case Proceed => SC.Proceed(model)
    case Finish => SC.Finish(model)
    case JumpToStep(step) => SC.JumpToStep(step, model)
    case Failure(error) => SC.Failure(error, model)
  }

  /** Every step result is the conversion of its own instruction with its own
      model, so conversion loses nothing and adds nothing. */
  lemma ConvertRecovers(r: SC.StepCompletionResult)
    ensures Convert(Directive(r), SC.ModelOf(r)) == r
  {
  }
}
