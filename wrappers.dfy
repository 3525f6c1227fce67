/** Failure-carrying datatypes shared by the whole model.
    `Option` stands for Python's `None`-or-value returns, `Result` for a call
    that either returns a value or raises an exception (whose text is `error`). */
module Wrappers {

  datatype Option<+T> = None | Some(value: T) {
    function GetOr(default: T): T {
      match this
      case Some(v) => v
      case None => default
    }
  }

  datatype Result<+R, +E> = Ok(value: R) | Err(error: E)
}
