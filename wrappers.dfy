/** Option and Result values shared by every module of the model. */
module Wrappers {

  /** A JavaScript value that may be `undefined`/`null` (None) or present (Some). */
  datatype Option<+T> = None | Some(value: T) {
    function GetOr(default: T): T {
      match this
      case Some(v) => v
      case None => default
    }
  }

  /** The outcome of an operation that can throw: a value or the error thrown. */
  datatype Result<+T, +E> = Ok(value: T) | Err(error: E)
}
