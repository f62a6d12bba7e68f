/** The optional value used for Python's `None`. */
module Wrappers {

  datatype Option<+T> = None | Some(value: T) {

    /** `value` when present, otherwise `default`, like `dict.get(key, default)`. */
    function GetOr(default: T): T {
      match this
      case Some(v) => v
      case None => default
    }
  }
}
