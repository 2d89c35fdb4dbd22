/** Optional values and failure results shared by every module of the model. */
module Wrappers {
  datatype Option<T> = None | Some(value: T)
  {
    function GetOr(default: T): T {
      match this
      case None => default
      case Some(v) => v
    }
  }

  /** A value, or the message of the exception the source raises instead. */
  datatype Result<T> = Ok(value: T) | Err(error: string)
}
