/** Wrappers: Go's nil pointers become Option, (value, error) pairs become Result. */
module Wrappers {

  datatype Option<+T> = None | Some(value: T)

  datatype Result<+R, +E> = Success(value: R) | Failure(error: E)
}
