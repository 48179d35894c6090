/** Python's `None`-or-value and the raise-or-return outcome of a call. */
module Wrappers {

  datatype Option<+T> = None | Some(value: T) {
    /** `x if x is not None else default` */
    function GetOr(default: T): T {
      match this
      case Some(v) => v
      case None => default
    }
  }

  /** A call that returned `value` or raised an exception whose `str` is `error`. */
  datatype Result<+T, +E> = Ok(value: T) | Err(error: E)
}
