/** Optional values: a JavaScript `null` or `undefined` becomes `None`. */
module Wrappers {

  datatype Option<+T> = None | Some(value: T) {

    /** `x ?? d` for a nullable `x`. */
    function GetOr(default: T): T {
      if Some? then value else default
    }
  }
}
