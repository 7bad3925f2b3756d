/** Failure-carrying datatypes shared by the modules of the model. */
module Wrappers {

  /** A value that may be absent: `undefined`/`null` in the application. */
  datatype Option<T> = None | Some(value: T) {
    function GetOr(default: T): T {
      match this
      case Some(v) => v
      case None => default
    }
  }

  /** The outcome of an operation that may throw; `Err` carries the thrown message. */
  datatype Result<T> = Ok(value: T) | Err(message: string)
}
