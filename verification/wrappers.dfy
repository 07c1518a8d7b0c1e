/** Failure-carrying result types shared by the other modules. */
module Wrappers {

  datatype Option<+T> = None | Some(value: T)

  /** The value of an operation that either completes or throws an exception. */
  datatype Result<+T, +E> = Success(value: T) | Failure(error: E)
}
