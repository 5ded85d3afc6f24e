/** Optional values, results and outcomes, and the errors the service throws. */
module Wrappers {

  /** A JavaScript value that may be `undefined`. */
  datatype Option<+T> = None | Some(value: T) {
    function GetOr(default: T): T {
      match this
      case Some(v) => v
      case None => default
    }
  }

  /** The result of an operation that returns a value or throws. */
  datatype Result<+T, +E> = Ok(value: T) | Err(error: E)

  /** The result of an operation that returns nothing or throws. */
  datatype Outcome<+E> = Pass | Fail(error: E)
}

module Errors {

  /** The `Error`s thrown by src/transactions.ts, one constructor per message. */
  datatype Error =
    | MissingDefaultAccountId
    | MissingProfileId
    | EndDateAfterToday
    | RangeTooLarge
    | NotInitialized

  /** The message each error is thrown with. */
  function Message(e: Error): string {
    match e
    case MissingDefaultAccountId => "API response missing required field: defaultAccountId"
    case MissingProfileId => "API response missing required field: profileId"
    case EndDateAfterToday => "endDate cannot be later than today."
    case RangeTooLarge => "The date range cannot exceed 90 days."
    case NotInitialized => "TransactionService not initialized"
  }

  /** Each error has a message of its own, so a caller can tell the errors apart by their text. */
  lemma MessagesDiffer(a: Error, b: Error)
    requires a != b
    ensures Message(a) != Message(b)
  {
  }
}
