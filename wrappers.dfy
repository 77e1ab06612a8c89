/** Option and Result: the absent value and the thrown error of the modelled code. */
module Wrappers {

  /** A value that may be absent: JavaScript's `null` or a missing storage key. */
  datatype Option<+T> = None | Some(value: T) {

    /** The value, or `default` when absent. */
    function GetOr(default: T): T {
      match this
      case Some(v) => v
      case None => default
    }
  }

  /** Either a value or the error a call would throw instead of returning. */
  datatype Result<+R, +E> = Success(value: R) | Failure(error: E)
}
