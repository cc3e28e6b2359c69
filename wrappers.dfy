/** Failure-carrying results used where the Go code panics. */
module Wrappers {

  datatype Option<+T> = None | Some(value: T)

  datatype Result<+T, +E> = Success(value: T) | Failure(error: E)

  /** The outcome of a step that writes into a builder and may abort. */
  datatype Outcome<+E> = Pass | Fail(error: E)
}
