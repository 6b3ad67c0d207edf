/** Optional values and error-carrying results, used wherever the Python code
    returns None or raises. */
module Wrappers {
  datatype Option<T> = None | Some(value: T) {
    function GetOr(default: T): T {
      match this
      case None => default
      case Some(v) => v
    }
  }

  datatype Result<T> = Ok(value: T) | Err(error: string)
}
