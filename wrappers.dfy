/** Failure-compatible wrappers used where the Java code returns null or throws. */
module Wrappers {

  /** A value that may be absent; stands for a Java reference that may be null. */
  datatype Option<+T> = None | Some(value: T) {
    function GetOr(default: T): T {
      match this
      case Some(v) => v
      case None => default
    }
  }

  /** The exceptions the modelled code raises on purpose. */
  datatype Exception =
    | NullPointer(what: string)
    | IllegalArgument(what: string)

  /** A computation that either yields a value or raises an exception. */
  datatype Result<+T> = Ok(value: T) | Raised(error: Exception)
}
