/** Optional values and results with an error, shared by the two service modules. */
module Wrappers {

  /** A value that may be missing: JavaScript's `undefined` or `null` where the source tests for it. */
  datatype Option<+T> = None | Some(value: T) {

    /** The value, or `default` when there is none (the source's `x ?? d` and `x || d` on present values). */
    function GetOr(default: T): T {
      match this
      case Some(v) => v
      case None => default
    }
  }

  /** The outcome of a step that either succeeds with a value or stops with an error value. */
  datatype Result<+T, +E> = Success(value: T) | Failure(error: E)

  function Min(a: int, b: int): int {
    if a <= b then a else b
  }
}
