/** Failure-carrying datatypes shared by every module of the model.
    Go's `(T, error)` pairs become `Result<T>`; a Go `error` alone becomes `Outcome`;
    a nil-able pointer becomes `Option`. */
module Wrappers {

  datatype Option<+T> = None | Some(value: T) {
    function GetOr(default: T): T {
      match this
      case Some(v) => v
      case None => default
    }
  }

  /** `Err` carries the Go error's message. */
  datatype Result<+T> = Ok(value: T) | Err(msg: string)

  /** The result of a Go function that returns only an `error`. */
  datatype Outcome = Pass | Fail(msg: string)
}
