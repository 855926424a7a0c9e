/** Optional values and results, standing in for Java's null and thrown exceptions. */
module Wrappers {

  /** `None` plays the part of a Java `null` reference. */
  datatype Option<+T> = None | Some(value: T)

  /** `Failure` carries the message of an exception thrown before any output is made. */
  datatype Result<+R, +E> = Success(value: R) | Failure(error: E)
}
