/** Optional values and the outcome of a call that may raise a Python exception. */
module Wrappers {

  datatype Option<+T> = None | Some(value: T) {
    function GetOr(default: T): T {
      match this
      case Some(v) => v
      case None => default
    }
  }

  /** A call either returns a value or raises; `Raised` names the Python exception. */
  datatype Result<+T> = Ok(value: T) | Raised(exception: string)
}
