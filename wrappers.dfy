/** Option and Result, the shapes used for JavaScript's `undefined` and thrown errors. */
module Wrappers {

  datatype Option<+T> = None | Some(value: T) {
    function GetOr(default: T): T {
      match this
      case Some(v) => v
      case None => default
    }
  }

  /** `Failure(message)` stands for an `Error` thrown with that message. */
  datatype Result<+R> = Success(value: R) | Failure(error: string)
}
