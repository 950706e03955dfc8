/** Option and Result: the stand-ins for Java's nullable references and thrown exceptions. */
module Wrappers {

  /** `None` plays the part of a Java `null` reference (or an empty `java.util.Optional`). */
  datatype Option<+T> = None | Some(value: T)

  /** The outcome of an operation that either returns a value or throws. */
  datatype Result<+R, +E> = Success(value: R) | Failure(error: E)
}
