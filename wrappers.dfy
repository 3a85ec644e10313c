/** Option and Result, the shapes used for absent values and for thrown errors. */
module Wrappers {

  datatype Option<+T> = None | Some(value: T) {
    function GetOr(default: T): T {
      match this
      case Some(v) => v
      case None => default
    }
  }

  /** A call that either returns a value or throws an Error carrying `message`. */
  datatype Result<+T> = Success(value: T) | Failure(message: string)
}
