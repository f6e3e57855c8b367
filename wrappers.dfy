/** Failure-carrying values used across the model. */
module Wrappers {

  /** A value that may be absent: a dictionary key never set, a regex with no match. */
  datatype Option<+T> = None | Some(value: T) {

    /** The value, or `default` when absent. */
    function GetOr(default: T): T {
      match this
      case Some(v) => v
      case None => default
    }
  }

  /** The outcome of a step that reads dictionary keys: a value, or the `KeyError` naming the missing key. */
  datatype Result<+T> = Ok(value: T) | KeyError(key: string)
}
