/** Option and Result, the two shapes every other module returns. */
module Wrappers {

  /** A value or nothing; `None` stands for a PHP callable that returned a falsy value. */
  datatype Option<+T> = None | Some(value: T) {
    function GetOr(default: T): T {
      match this
      case Some(v) => v
      case None => default
    }
  }

  /** A value or a raised exception. */
  datatype Result<+T, +E> = Success(value: T) | Failure(error: E)
}
