/** Option and Result, the two wrappers the model uses. */
module Wrappers {

  /** A value that may be absent: JavaScript's `null`/`undefined` for an optional field. */
  datatype Option<+T> = None | Some(value: T) {
    /** The value, or `default` when absent. */
    function GetOr(default: T): T {
      match this
      case Some(v) => v
      case None => default
    }
  }

  /** The outcome of an operation that the source guards with an assertion. */
  datatype Result<+R, +E> = Success(value: R) | Failure(error: E)
}
