/** Option and Result datatypes shared by the other modules. */
module Wrappers {

  /** A value that may be missing; `None` stands for JavaScript's `undefined`. */
  datatype Option<+T> = None | Some(value: T)

  /** The outcome of a validation: the accepted value or the error message. */
  datatype Result<+T, +E> = Success(value: T) | Failure(error: E)
}
