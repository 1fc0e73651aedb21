/** The two wrapper datatypes the model uses for Go's nil pointers and error returns. */
module Wrappers {

  /** A protobuf or Go pointer: `None` is nil. */
  datatype Option<+T> = None | Some(value: T)

  /** A Go `(value, error)` pair. */
  datatype Result<+T, +E> = Success(value: T) | Failure(error: E)
}
