/** Failure-carrying results used throughout the model. An `Err` carries the
    message of the `Error` the source throws; `Rendered` is how such an
    error reads inside a template literal (`${error}`). */
module Wrappers {

  datatype Option<+T> = None | Some(value: T) {
    function GetOr(default: T): T {
      match this
      case Some(v) => v
      case None => default
    }
  }

  datatype Result<+T> = Ok(value: T) | Err(error: string) {
    predicate IsFailure() {
      Err?
    }

    function PropagateFailure<U>(): Result<U>
      requires Err?
    {
      Err(error)
    }

    function Extract(): T
      requires Ok?
    {
      value
    }
  }

  /** `${error}` for an `Error` with this message (`Error.prototype.toString`). */
  function Rendered(message: string): string {
    "Error: " + message
  }
}
