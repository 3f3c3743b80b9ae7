/** Option and Result, the shapes used for JavaScript's `null`/absent values and thrown errors. */
module Wrappers {

  datatype Option<+T> = None | Some(value: T) {
    /** `this ?? default` (or `this || default` where only absence is falsy). */
    function GetOr(default: T): T {
      match this
      case Some(v) => v
      case None => default
    }
  }

  /** `Ok` is a returned value; `Err` is an exception the caller catches. */
  datatype Result<+T, +E> = Ok(value: T) | Err(error: E)
}
