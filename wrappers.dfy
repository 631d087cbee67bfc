/** Optional values and results, standing in for JavaScript's `undefined`/`null` and for thrown errors. */
module Wrappers {

  /** A value that may be absent (`undefined` or `null` in the source). */
  datatype Option<+T> = None | Some(value: T) {

    /**
     * The value, or `fallback` when absent: the source's `x ?? fallback`. It also agrees
     * with `x || fallback` whenever every present value is truthy (an array) or the
     * fallback is the type's only falsy value (`false`, `0`).
     */
    function GetOr(fallback: T): T {
      match this
      case Some(v) => v
      case None => fallback
    }
  }

  /** The value a call returns, or the error it throws. */
  datatype Result<+T, +E> = Ok(value: T) | Err(error: E)
}
