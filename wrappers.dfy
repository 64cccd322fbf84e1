/** Option and Result, the two failure-carrying values the model uses
    in place of Go's nil references and (value, error) pairs. */
module Wrappers {

  /** A value that may be absent: a nil reference or nil slice in Go is None. */
  datatype Option<+T> = None | Some(value: T)

  /** Either a value or the error that took its place. */
  datatype Result<+R, +E> = Success(value: R) | Failure(error: E)
}
