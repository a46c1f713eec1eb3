/** Optional values and results with an error side, used wherever the
    source has `undefined`/`null`/`NaN`/`None` or throws. */
module Wrappers {

  /** `None` stands for a missing value: JavaScript `undefined`/`null`,
      a `NaN` produced by parsing, or Python `None`. */
  datatype Option<+T> = None | Some(value: T) {
    function GetOr(default: T): T {
      match this
      case Some(v) => v
      case None => default
    }
  }

  /** A computation that either produced a value or raised an error. */
  datatype Result<+T, +E> = Ok(value: T) | Err(error: E)
}
