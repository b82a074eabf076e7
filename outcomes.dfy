/** Option and Result, the two failure-carrying shapes the model needs. */
module Outcomes {

  /** A lookup that may fail (Go's `(value, err)` where only `err == nil` matters). */
  datatype Option<+T> = None | Some(value: T)

  /** A value or the error that a Go function returned alongside its zero value. */
  datatype Result<+T, +E> = Success(value: T) | Failure(error: E)

  function Max(a: int, b: int): int { if a < b then b else a }
}
