/** Python's `X | None`, as an Option value. */
module Wrappers {

  datatype Option<+T> = None | Some(value: T) {

    /** `value or default`, the usual Python fallback for `None`. */
    function GetOr(default: T): T {
      match this
      case Some(v) => v
      case None => default
    }
  }
}
