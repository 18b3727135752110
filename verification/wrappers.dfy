/** Failure-carrying datatypes shared by the models: a nullable reference or optional
    value becomes an Option, a Java exception becomes the Fail side of an Outcome. */
module Wrappers {

  datatype Option<+T> = None | Some(value: T) {
    function GetOr(default: T): T {
      match this
      case Some(v) => v
      case None => default
    }
  }

  datatype Outcome<+E> = Pass | Fail(error: E)
}
