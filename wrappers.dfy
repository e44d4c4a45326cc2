/** The optional value used throughout the model: a JavaScript `undefined`, `null`
    or `NaN` that the source tests for becomes `None`. */
module Wrappers {

  datatype Option<+T> = None | Some(value: T) {

    /** The value, or `default` when there is none. */
    function GetOr(default: T): T {
      match this
      case Some(v) => v
      case None => default
    }
  }
}
