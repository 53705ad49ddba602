/** Failure-carrying datatypes shared by the model: an optional value and the
    success/failure result the library uses for host callbacks and errors. */
module Wrappers {

  datatype Option<+T> = None | Some(value: T)

  datatype Result<+T, +E> = Success(value: T) | Failure(error: E)
}
