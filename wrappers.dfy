/** Python's `None`, raised exceptions and "no return value" as datatypes. */
module Wrappers {

  /** A value that may be Python's `None`. */
  datatype Option<+T> = None | Some(value: T) {
    /** The value, or `default` when this is `None` (Python's `x if x is not None else default`). */
    function GetOr(default: T): (r: T)
      ensures Some? ==> r == value
      ensures None? ==> r == default
    {
      match this
      case Some(v) => v
      case None => default
    }
  }

  /** A computed value, or the exception raised instead of returning it. */
  datatype Result<+R, +E> = Success(value: R) | Failure(error: E)

  /** A procedure that returns nothing, or the exception it raised. */
  datatype Outcome<+E> = Pass | Fail(error: E)
}
