/** Nullable references and exceptions of the Java code, as values. */
module Wrappers {

  /** A Java reference that may be null. */
  datatype Option<+T> = None | Some(value: T)

  /** A Java call that returns a value or throws. */
  datatype Result<+R, +E> = Success(value: R) | Failure(error: E)

  /** A Java call that returns nothing or throws. */
  datatype Outcome<+E> = Pass | Fail(error: E)
}
