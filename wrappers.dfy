/** Failure-carrying values shared by every module of the model. */
module Wrappers {

  /** Python's `Optional[T]`: `None` or a present value. */
  datatype Option<+T> = None | Some(value: T) {
    function GetOr(default: T): T {
      match this
      case Some(v) => v
      case None => default
    }
  }

  /** The outcome of an operation that may raise: a value, or the error it raises. */
  datatype Result<+T, +E> = Ok(value: T) | Err(error: E)
}
