/** Optional values and fallible results, standing in for Go's `(T, error)`
    return pairs and for an `error` that may be `nil`. */
module Wrappers {

  /** `None` plays the part of Go's `nil` error, `Some(e)` of a non-nil one. */
  datatype Option<+T> = None | Some(value: T)

  /** The outcome of a collaborator call that returns a value or an error. */
  datatype Result<+T, +E> = Success(value: T) | Failure(error: E)
}
