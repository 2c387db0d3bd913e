/** Failure-carrying values shared by the rest of the model. */
module Wrappers {

  /** A value that may be absent: a missing dictionary key, a failed lookup. */
  datatype Option<+T> = None | Some(value: T) {
    function GetOr(default: T): T {
      match this
      case Some(v) => v
      case None => default
    }
  }

  /** The outcome of a step that may raise: `Failure` carries the text of the exception. */
  datatype Result<+T, +E> = Success(value: T) | Failure(error: E)
}
