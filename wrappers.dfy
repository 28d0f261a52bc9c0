/** Option and Result, the failure-compatible wrappers the rest of the model uses.
    `Result` works with `:-`, so a failing step ends the computation the way a
    panicking `unwrap` ends the mapping in the original program. */
module Wrappers {

  datatype Option<+T> = None | Some(value: T)

  datatype Result<+R, +E> = Success(value: R) | Failure(error: E) {

    predicate IsFailure() {
      Failure?
    }

    function PropagateFailure<U>(): Result<U, E>
      requires Failure?
    {
      Failure(error)
    }

    function Extract(): R
      requires Success?
    {
      value
    }
  }
}
