/** Option and Result values shared by every module of the model. */
module Wrappers {

  /** A value that may be absent: JavaScript `null` / `undefined` is `None`. */
  datatype Option<+T> = None | Some(value: T) {
    function GetOr(default: T): T {
      match this
      case Some(v) => v
      case None => default
    }
  }

  /** The outcome of an operation that may throw: `Failure` carries the thrown message. */
  datatype Result<+R, +E> = Success(value: R) | Failure(error: E)
}
