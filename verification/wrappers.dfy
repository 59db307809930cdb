/** Option and Result datatypes for values a Java reference may leave null
    and for operations that can throw. */
module Wrappers {

  /** A value that may be absent (a Java field still holding null). */
  datatype Option<+T> = None | Some(value: T)

  /** The outcome of an operation that either produces a value or reports
      the failure the Java code would throw. */
  datatype Result<+R, +E> = Success(value: R) | Failure(error: E)
}
