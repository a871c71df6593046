/** Failure-carrying datatypes shared by every module: `Option` stands for
    Python's `None` / JavaScript's `null`, `Result` for a call that either
    returns or raises. */
module Wrappers {

  datatype Option<+T> = None | Some(value: T) {

    /** The value, or `default` when there is none. */
    function GetOr(default: T): T {
      match this
      case Some(v) => v
      case None => default
    }
  }

  /** `Failure(e)` is a raised exception (or rejected promise) carrying its
      message text. */
  datatype Result<+T, +E> = Success(value: T) | Failure(error: E) {

    function ToOption(): Option<T> {
      match this
      case Success(v) => Some(v)
      case Failure(_) => None
    }
  }
}
