/** Failure-carrying values shared by the other modules. */
module Wrappers {

  /** JavaScript's `undefined` / `null` against a present value. */
  datatype Option<+T> = None | Some(value: T) {
    function GetOr(default: T): T {
      match this
      case Some(v) => v
      case None => default
    }
  }

  /** A computation that either produced a value or threw. */
  datatype Result<+R, +E> = Ok(value: R) | Err(error: E)
}
