/** Option, Result and Outcome values: how the model writes a nullable column
    and an operation that either returns or throws an engine error. */
module Wrappers {

  /** The canonical engine error codes that the modelled services raise. */
  datatype EngineError =
    | NotApproved
    | AlreadyMinted
    | EpochNotActive
    | RuleViolation
    | MemberCapExceeded
    | InsufficientBudget
    | AdvanceCapExceeded
    | RollingAdvanceForbidden
    | AdvanceRateExceeded
    | ProposalRequired
    | SecondApproverRequired
    | InvalidStatus
    | NotFound
    | Forbidden
    | Conflict
    | InvalidReason
    | AlreadyReversed
    | ValidationError

  datatype Option<+T> = None | Some(value: T) {
    function GetOr(default: T): T {
      match this
      case Some(v) => v
      case None => default
    }
  }

  datatype Result<+T> = Success(value: T) | Failure(error: EngineError) {
    predicate IsFailure() {
      Failure?
    }

    function PropagateFailure<U>(): Result<U>
      requires Failure?
    {
      Failure(error)
    }

    function Extract(): T
      requires Success?
    {
      value
    }
  }

  /** A check that either passes or throws. */
  datatype Outcome = Pass | Fail(error: EngineError) {
    predicate IsFailure() {
      Fail?
    }

    function PropagateFailure<U>(): Result<U>
      requires Fail?
    {
      Failure(error)
    }
  }

  function Need(condition: bool, error: EngineError): Outcome {
    if condition then Pass else Fail(error)
  }
}
