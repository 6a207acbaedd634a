/** Option, Result and Outcome values used in place of Python's None and exceptions. */
module Wrappers {

  datatype Option<+T> = None | Some(value: T) {
    /** `x if x is not None else d`, or `dict.get(key, d)` when the key may be absent */
    function GetOr(default: T): T {
      match this
      case Some(v) => v
      case None => default
    }
  }

  datatype Result<+R, +E> = Success(value: R) | Failure(error: E)

  /** The outcome of a step whose only interesting result is whether it raised. */
  datatype Outcome = Pass | Fail(msg: string)
}
