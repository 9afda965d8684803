/** Option and Result: the null returns and the thrown exceptions of the command-line helpers. */
module Wrappers {

  /** A Java reference that may be null. */
  datatype Option<+T> = None | Some(value: T)

  /** A computation that either yields a value or fails the way the Java code throws. */
  datatype Result<+T, +E> = Success(value: T) | Failure(error: E)
}
