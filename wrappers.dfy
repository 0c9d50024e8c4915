/** Failure-carrying values used across the model. */
module Wrappers {

  /** An optional value: `null`/`undefined` in the source become `None`. */
  datatype Option<+T> = None | Some(value: T) {
    function GetOr(default: T): T {
      match this
      case Some(v) => v
      case None => default
    }
  }

  /** A settled call: either its value or the error it was rejected with. */
  datatype Result<+R, +E> = Success(value: R) | Failure(error: E)
}
