/** Failure-compatible wrappers: Python's `None`-or-value and raise-or-return shapes. */
module Wrappers {

  /** A value that may be absent (Python's optional dictionary entries). */
  datatype Option<+T> = None | Some(value: T) {

    /** The wrapped value, or `default` when absent (Python's `dict.get(key, default)`). */
    function GetOr(default: T): T {
      match this
      case Some(v) => v
      case None => default
    }
  }

  /** Either a successful value or the error a Python call would raise. */
  datatype Result<+T, +E> = Success(value: T) | Failure(error: E)
}
