/** The optional-value wrapper used for JavaScript's `undefined`/`null`. */
module Wrappers {
  datatype Option<+T> = None | Some(value: T) {
    /** The value, or `default` when absent (JavaScript's `x ?? default`). */
    function GetOr(default: T): T {
      match this
      case Some(v) => v
      case None => default
    }
  }
}
