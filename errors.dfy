/** Java exceptions thrown by the client, and the Option/Result/Outcome wrappers
    that carry them through the model. */
module Errors {

  /** A possibly-null Java reference. */
  datatype Option<+T> = None | Some(value: T)

  /** The values a core `RateLimitedException` carries; the lenient parser
      leaves a missing string as Java `null` (None) and a missing delay as -1. */
  datatype RateLimitInfo = RateLimitInfo(delay: int, botId: Option<string>, ip: Option<string>, route: Option<string>)

  /** The values a `RatelimitedException` carries; the strict parser demands all four. */
  datatype RatelimitInfo = RatelimitInfo(delay: int, botId: string, ip: string, route: string)

  /** The exceptions the modelled code throws. */
  datatype Exception =
    | NullPointer(message: string)
    | IllegalArgument(message: string)
    | IllegalState(message: string)
    | IO(message: string)
      /** org.json's `JSONException`; `what` names the key or value that failed. */
    | JsonError(what: string)
      /** core `RateLimitedException` (lenient, built from a JSON object). */
    | RateLimited(info: RateLimitInfo)
      /** `RatelimitedException` of the core module and of the second generation (strict). */
    | Ratelimited(limit: RatelimitInfo)
      /** the first generation's `RatelimitedException`, built from the raw response text. */
    | RatelimitedText(response: string)

  /** A value or the exception thrown instead of returning it. */
  datatype Result<+T> = Ok(value: T) | Err(error: Exception) {
    predicate IsFailure() { Err? }
    function PropagateFailure<U>(): Result<U>
      requires Err?
    {
      Err(error)
    }
    function Extract(): T
      requires Ok?
    {
      value
    }
  }

  /** A `void` Java call: it returns normally or throws. */
  datatype Outcome = Pass | Fail(error: Exception) {
    predicate IsFailure() { Fail? }
    function PropagateFailure<U>(): Result<U>
      requires Fail?
    {
      Err(error)
    }
  }

  /** Runs `second` only when `first` returned normally, as two guard calls in a row do. */
  function Then(first: Outcome, second: Outcome): (r: Outcome)
    ensures first.Fail? ==> r == first
    ensures first.Pass? ==> r == second
  {
    if first.Fail? then first else second
  }
}
