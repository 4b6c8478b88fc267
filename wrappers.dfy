/** Optional values and failures shared by the modules of the model. */
module Wrappers {

  /** A Java reference that may be null. */
  datatype Option<+T> = None | Some(value: T) {
    function GetOr(default: T): T {
      match this
      case Some(v) => v
      case None => default
    }
  }

  /** A value, or an exception that escaped the operation. */
  datatype Result<+T> = Ok(value: T) | Err
}
