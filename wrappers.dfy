/** Optional values: `None` stands for a JavaScript property that is absent
    (or `undefined`), `Some(v)` for one that is present with value `v`. */
module Wrappers {

  datatype Option<+T> = None | Some(value: T) {

    /** The value if present, otherwise `default`. */
    function GetOr(default: T): T {
      match this
      case Some(v) => v
      case None => default
    }
  }
}
