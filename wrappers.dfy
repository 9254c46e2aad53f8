/** The optional value used for JavaScript slots that may be absent (`undefined`). */
module Wrappers {

  datatype Option<+T> = None | Some(value: T) {

    /** The value if present, else `default`: the source's `a ? a : default`. */
    function GetOr(default: T): T {
      match this
      case Some(v) => v
      case None => default
    }
  }
}
