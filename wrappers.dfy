/** Option and Result: absent values and the exceptions the scripts throw. */
module Wrappers {

  datatype Option<+T> = None | Some(value: T) {
    /** The value, or `default` when there is none (JavaScript's `??` and `|| default`). */
    function GetOr(default: T): (v: T) {
      match this
      case Some(v) => v
      case None => default
    }
  }

  /** A promise that either resolves with `value` or rejects with `error`. */
  datatype Result<+R, +E> = Success(value: R) | Failure(error: E)
}
