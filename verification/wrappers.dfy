/** Option and Result values shared by the other modules. */
module Wrappers {

  /** An optional value: the model of a nullable reference or a `java.util.Optional`. */
  datatype Option<+T> = None | Some(value: T)

  /** The outcome of an operation that either returns a value or throws an exception. */
  datatype Result<+R, +E> = Success(value: R) | Failure(error: E)
}
