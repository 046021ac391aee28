/** Failure-compatible result type used for the action's thrown errors. */
module Wrappers {

  /** Either a value, or the message of the Error the source would throw. */
  datatype Result<+T, +E> = Success(value: T) | Failure(error: E)
}
