/**
 * Optional values and the exceptions the scripts and helpers throw.
 * `Err` carries the message of the JavaScript `Error` the source throws.
 */
module Wrappers {

  datatype Option<+T> = None | Some(value: T) {
    function GetOr(default: T): T {
      match this
      case Some(v) => v
      case None => default
    }
  }

  datatype Result<+T> = Ok(value: T) | Err(message: string)
}
