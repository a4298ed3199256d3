/** Option and Result: a missing dictionary key and a raised exception, as values. */
module Wrappers {

  datatype Option<+T> = None | Some(value: T) {
    /** `d.get(key, default)` in the source. */
    function GetOr(default: T): T {
      match this
      case Some(v) => v
      case None => default
    }
  }

  /** `Failure(message)` stands for an exception whose `str()` is `message`. */
  datatype Result<+R, +E> = Success(value: R) | Failure(error: E)
}
