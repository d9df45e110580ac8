/** The optional value used wherever the extension works with `null` or `NaN`. */
module Wrappers {

  /** `None` stands for JavaScript's `null` (or `undefined`, or `NaN` from `parseInt`). */
  datatype Option<+T> = None | Some(value: T) {

    /** Returns the value held in Some, or the given default for None. */
    function GetOr(default: T): T {
      match this
      case Some(v) => v
      case None => default
    }
  }
}
