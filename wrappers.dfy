/** Small shared value types. */
module Wrappers {

  /** A possibly absent value: Go's nil pointers and "not found" results. */
  datatype Option<+T> = None | Some(value: T)

  /** A value or the error that replaced it: Go's `(value, err)` pairs. */
  datatype Result<+T, +E> = Success(value: T) | Failure(error: E)
}
