/** Plain option and result types shared by every module of the model. */
module Wrappers {

  /** An optional value: Go's nil pointer or nil interface is `None`. */
  datatype Option<+T> = None | Some(value: T)

  /** The `(value, error)` pair of a Go call, with exactly one side populated. */
  datatype Result<+R, +E> = Success(value: R) | Failure(error: E)
}
