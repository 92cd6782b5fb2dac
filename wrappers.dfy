/** Failure-compatible result types used in place of the exceptions thrown by the configuration accessor. */
module Wrappers {

  datatype Option<+T> = None | Some(value: T)

  /** Either a value or the message of the error that would have been thrown. */
  datatype Result<+T, +E> = Success(value: T) | Failure(error: E) {

    predicate IsFailure() {
      Failure?
    }

    function PropagateFailure<U>(): Result<U, E>
      requires Failure?
    {
      Failure(error)
    }

    function Extract(): T
      requires Success?
    {
      value
    }
  }
}
