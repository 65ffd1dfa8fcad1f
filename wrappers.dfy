/** Small value types shared by the modules of the model. */
module Wrappers {

  /** A value that may be missing (Python's `None`, or a dictionary key that is absent). */
  datatype Option<T> = None | Some(value: T) {
    function GetOr(default: T): T {
      match this
      case Some(v) => v
      case None => default
    }
  }

  /** The result of a Python call that either returns a value or raises an exception
      whose `str()` is `message`. */
  datatype Step<T> = Done(value: T) | Raised(message: string)

  /** The result of a Python call made only for its effect: it returns, or it raises. */
  datatype Outcome = Pass | Fail(message: string)

  function Min(a: int, b: int): int {
    if a <= b then a else b
  }
}
