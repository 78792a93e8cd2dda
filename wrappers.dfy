/** Option and Result, the shapes Python's `None` returns and caught exceptions take in this model. */
module Wrappers {

  datatype Option<+T> = None | Some(value: T) {
    function GetOr(default: T): T {
      match this
      case Some(v) => v
      case None => default
    }
  }

  /** A collaborator call that either returned a value or raised; `error` is the exception's text. */
  datatype Result<+T> = Ok(value: T) | Err(error: string)
}
