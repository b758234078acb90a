/** Failure-compatible wrappers used by the rest of the model. */
module Wrappers {

  datatype Option<+T> = None | Some(value: T)

  /** A value or the error that the source throws instead of returning one. */
  datatype Result<+R, +E> = Success(value: R) | Failure(error: E) {

    predicate IsFailure() {
      Failure?
    }

    function PropagateFailure<U>(): Result<U, E>
      requires Failure?
    {
      Failure(error)
    }

    function Extract(): R
      requires Success?
    {
      value
    }
  }

  /** Completion of a `void` operation: it returned, or it threw `error`. */
  datatype Outcome<+E> = Pass | Fail(error: E)
}
