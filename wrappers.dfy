/** Option and Result: Java's nullable references and thrown exceptions, made explicit. */
module Wrappers {

  /** A value that may be absent; `None` stands for Java's `null`. */
  datatype Option<+T> = None | Some(value: T) {

    /** The value if present, otherwise `default`. */
    function GetOr(default: T): (r: T)
      ensures Some? ==> r == value
      ensures None? ==> r == default
    {
      match this
      case Some(v) => v
      case None => default
    }
  }

  /** The outcome of a call that may throw: a value or the exception it raised. */
  datatype Result<+T, +E> = Ok(value: T) | Err(error: E)
}
