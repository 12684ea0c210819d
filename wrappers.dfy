/** The two failure-carrying wrappers the model uses in place of Go's nil and (value, error) pairs. */
module Wrappers {

  /** A Go pointer or other nil-able value: None stands for nil. */
  datatype Option<+T> = None | Some(value: T)

  /** A Go (value, error) result: exactly one side is meaningful. */
  datatype Result<+T, +E> = Success(value: T) | Failure(error: E)
}
