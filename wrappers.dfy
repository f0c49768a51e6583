/** The optional value used throughout the model for JavaScript's `null`/`undefined`
    and for Python's `None`. */
module Wrappers {

  datatype Option<+T> = None | Some(value: T) {

    /** The value held in Some, or the given default when None. */
    function GetOr(default: T): T {
      match this
      case Some(v) => v
      case None => default
    }
  }
}
