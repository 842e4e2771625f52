/** Optional values and pass/fail outcomes, as the rest of the model uses them. */
module Wrappers {

  /** A value that may be absent (`undefined` or `null` in the source). */
  datatype Option<+T> = None | Some(value: T) {

    /** The value, or `default` when it is absent. */
    function GetOr(default: T): T {
      match this
      case Some(v) => v
      case None => default
    }
  }

  /** The outcome of an awaited runtime call that either resolves or rejects with a message. */
  datatype Outcome = Pass | Fail(error: string)
}
