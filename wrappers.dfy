/** Small failure-compatible wrapper used across the model. */
module Wrappers {

  /** A value that may be absent: JavaScript's `undefined`/`null` for an optional value. */
  datatype Option<+T> = None | Some(value: T) {

    /** The value, or `default` when absent (a destructuring default `x = d`). */
    function GetOr(default: T): T {
      match this
      case Some(v) => v
      case None => default
    }
  }
}
