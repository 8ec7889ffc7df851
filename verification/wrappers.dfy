/** The optional-value datatype used for JavaScript's `undefined`. */
module Wrappers {

  /** `None` stands for an argument the caller left out (`undefined`). */
  datatype Option<+T> = None | Some(value: T) {

    /** The value, or `default` when it is absent. */
    function GetOr(default: T): T {
      match this
      case Some(v) => v
      case None => default
    }
  }
}
