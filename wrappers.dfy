/** The optional-value datatype used for the source's `undefined`, `null` and NaN cases. */
module Wrappers {

  /** `None` stands for a JavaScript value that is `undefined` (or a parse that gave NaN). */
  datatype Option<+T> = None | Some(value: T) {

    /** The contained value, or `default` when there is none. */
    function GetOr(default: T): T {
      match this
      case Some(v) => v
      case None => default
    }
  }
}
