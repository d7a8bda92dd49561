/** Option and Result, the failure-compatible wrappers used across the model. */
module Wrappers {

  datatype Option<+T> = None | Some(value: T)

  /** The `(T, error)` pair of a Go function: a value, or the error that replaced it. */
  datatype Result<+T, +E> = Success(value: T) | Failure(error: E) {
    predicate IsFailure() { Failure? }

    function PropagateFailure<U>(): Result<U, E>
      requires Failure?
    {
      Failure(error)
    }

    function Extract(): T
      requires Success?
    {
      value
    }
  }
}
