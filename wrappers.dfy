/** Option and Result, the failure-compatible shapes the rest of the model uses. */
module Wrappers {

  /** Python's `None` or a present value. */
  datatype Option<+T> = None | Some(value: T) {

    /** The value, or `default` when absent (as `dict.get(key, default)` does). */
    function GetOr(default: T): T {
      match this
      case Some(v) => v
      case None => default
    }
  }

  /** A returned value, or the exception the source raises instead. */
  datatype Result<+T, +E> = Ok(value: T) | Err(error: E)
}
