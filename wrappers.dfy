/** Option and Result: the Java code's nullable references and its thrown
    IOException, written as values. */
module Wrappers {

  /** A nullable reference: None is Java's null. */
  datatype Option<+T> = None | Some(value: T)

  /** The outcome of an operation that either returns a value or throws. */
  datatype Result<+R, +E> = Success(value: R) | Failure(error: E)
}
