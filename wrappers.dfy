/** Option, Result and Outcome: the source's `None`, its exceptions and its `-> None` operations that may raise. */
module Wrappers {

  datatype Option<T> = None | Some(value: T) {
    /** `x if x is not None else default` */
    function GetOr(default: T): T {
      match this
      case Some(v) => v
      case None => default
    }
  }

  /** A value, or the exception that was raised instead. */
  datatype Result<T, E> = Success(value: T) | Failure(error: E)

  /** A procedure that returns nothing, or the exception that was raised instead. */
  datatype Outcome<E> = Pass | Fail(error: E)
}
