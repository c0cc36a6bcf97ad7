/** Optional values: `None` stands for JavaScript's `undefined` where the
    source reads past the end of a typed array or looks up a missing key. */
module Wrappers {

  datatype Option<+T> = None | Some(value: T) {

    /** The value if present, otherwise `default`. */
    function GetOr(default: T): T {
      match this
      case Some(v) => v
      case None => default
    }
  }
}
