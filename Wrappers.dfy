/** Failure-compatible wrappers used to model Python's exceptions as values. */
module Wrappers {

  datatype Option<+T> = None | Some(value: T)

  /** The value of a fallible operation, or the error that would have been raised. */
  datatype Result<+R, +E> = Success(value: R) | Failure(error: E) {
    predicate IsFailure() { Failure? }

    function PropagateFailure<U>(): Result<U, E>
      requires Failure?
    {
      Failure(error)
    }

    function Extract(): R
      requires Success?
    {
      value
    }
  }
}
