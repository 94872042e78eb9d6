/** Option and Result, the optional value and the value-or-error shapes used throughout the model. */
module Wrappers {

  datatype Option<+T> = None | Some(value: T) {
    /** The PHP `??`/`?:` fallback: the held value, or `default` when absent. */
    function GetOr(default: T): T {
      match this
      case Some(v) => v
      case None => default
    }
  }

  datatype Result<+R, +E> = Success(value: R) | Failure(error: E) {
    predicate IsFailure() {
      Failure?
    }

    function PropagateFailure<U>(): Result<U, E>
      requires Failure?
    {
      Failure(error)
    }

    function Extract(): R
      requires Success?
    {
      value
    }
  }
}
