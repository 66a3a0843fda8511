/** Failure-compatible results: every `raise` of the modelled code is one of these errors. */
module Outcomes {
  datatype EngineError =
    | InvalidEvent        // a pydantic validator rejects the event
    | EventOrder          // EventOrderError
    | EventLink           // EventLinkError
    | LedgerInvariant     // LedgerInvariantError
    | MarketRuleNotFound  // MarketRuleNotFoundError
    | MarketRuleRejected  // the injected market rule raises
    | FeeRuleNotFound     // FeeRuleNotFoundError
    | Unsupported         // BacktestEngineError for an event the engine does not consume
    | ReplayRejected      // validate_replay_stream raises
    | InputMismatch       // RegimeTransitionInputMismatch
    | DateOverflow        // OverflowError: date arithmetic leaves the calendar
    | InvalidInput        // any other ValueError of the research modules

  datatype Result<+T> = Ok(value: T) | Err(error: EngineError) {
    predicate IsFailure() {
      Err?
    }

    function PropagateFailure<U>(): Result<U>
      requires Err?
    {
      Err(error)
    }

    function Extract(): T
      requires Ok?
    {
      value
    }
  }

  datatype Outcome = Pass | Fail(error: EngineError) {
    predicate IsFailure() {
      Fail?
    }

    function PropagateFailure<U>(): Result<U>
      requires Fail?
    {
      Err(error)
    }
  }

  /** `if not condition: raise error`. */
  function Need(condition: bool, error: EngineError): Outcome {
    if condition then Pass else Fail(error)
  }

  datatype Option<+T> = None | Some(value: T)
}
