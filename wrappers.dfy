/**
 * Optional values, standing for Python's `None` or an absent dictionary key,
 * and results that are either a value or a raised error.
 */
module Wrappers {

  datatype Option<+T> = None | Some(value: T) {

    /** The encapsulated value, or `default` when there is none. */
    function GetOr(default: T): (r: T)
      ensures Some? ==> r == value
      ensures None? ==> r == default
    {
      match this
      case Some(v) => v
      case None => default
    }
  }

  /** A value, or the error a call raised instead. */
  datatype Result<+R, +E> = Success(value: R) | Failure(error: E)
}
