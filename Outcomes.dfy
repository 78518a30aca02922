/** Optional values and error returns, standing for Go's `nil` results and `error` values. */
module Outcomes {

  /** A value that may be absent (a nil pointer or a nil error in Go). */
  datatype Option<+T> = None | Some(value: T)

  /** The (value, error) pair of a Go call where exactly one side is meaningful. */
  datatype Result<+T, +E> = Ok(value: T) | Err(error: E)
}
