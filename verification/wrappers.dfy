/** Option and Result, the absence and error signals used throughout the model. */
module Wrappers {

  /** A nullable value: `None` stands for SQL NULL, a missing JSON field or a failed fetch. */
  datatype Option<+T> = None | Some(value: T) {
    function GetOr(default: T): T {
      match this
      case Some(v) => v
      case None => default
    }
  }

  /** The outcome of a request handler: a payload or an error reply. */
  datatype Result<+R, +E> = Ok(value: R) | Err(error: E)
}
