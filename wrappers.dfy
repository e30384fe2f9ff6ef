/** The optional-value datatype used throughout the model: `None` stands for a
    JavaScript `undefined` (a missing key) or, for parse results, for `NaN`. */
module Wrappers {

  datatype Option<+T> = None | Some(value: T) {

    /** The wrapped value, or `default` when there is none (JavaScript's `x ?? default`). */
    function GetOr(default: T): T {
      match this
      case Some(v) => v
      case None => default
    }
  }
}
