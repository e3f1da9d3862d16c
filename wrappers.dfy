/** Option and Result, the two failure-carrying types the model uses. */
module Wrappers {

  /** A Python value that may be absent (a missing dictionary key, `None`). */
  datatype Option<+T> = None | Some(value: T) {
    function GetOr(default: T): T {
      match this
      case Some(v) => v
      case None => default
    }
  }

  /** The outcome of a step that can raise: `Err` carries `str(e)` of the exception. */
  datatype Result<+T> = Ok(value: T) | Err(error: string)
}
