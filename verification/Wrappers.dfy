/** The two failure-carrying datatypes every other module uses. */
module Wrappers {

  datatype Option<+T> = None | Some(value: T) {
    function GetOr(default: T): T {
      match this
      case Some(v) => v
      case None => default
    }
  }

  /** The two ways a promise settles, or a call returns. */
  datatype Result<+T, +E> = Ok(value: T) | Err(error: E)
}
