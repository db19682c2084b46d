/** Option and Result: how the model writes JavaScript's `null`/`undefined`
    and thrown exceptions as ordinary values. */
module Wrappers {

  /** `None` stands for `null` (or `undefined`) in the source. */
  datatype Option<+T> = None | Some(value: T) {
    function GetOr(default: T): T {
      match this
      case Some(v) => v
      case None => default
    }
  }

  /** `Failure` carries the message of the `Error` the source throws. */
  datatype Result<+R, +E> = Success(value: R) | Failure(error: E)
}
