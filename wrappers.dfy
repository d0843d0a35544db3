/** Option and Result, the error envelopes used throughout the model. */
module Wrappers {

  datatype Option<+T> = None | Some(value: T) {

    /** Returns the value held in Some, or the given default. */
    function GetOr(default: T): T {
      match this
      case Some(v) => v
      case None => default
    }
  }

  /** Ok carries a value; Err carries the message of the Python exception raised. */
  datatype Result<+R> = Ok(value: R) | Err(error: string)
}
