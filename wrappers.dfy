/** Option and Result, the failure-carrying datatypes the rest of the model uses
    for Python's `None` and for raised exceptions. */
module Wrappers {

  datatype Option<+T> = None | Some(value: T) {
    /** Python's `d.get(k, default)` once the lookup has produced an Option. */
    function GetOr(default: T): T {
      match this
      case Some(v) => v
      case None => default
    }
  }

  /** `Failure` stands for a raised exception; `error` is its message. */
  datatype Result<+T, +E> = Success(value: T) | Failure(error: E)
}
