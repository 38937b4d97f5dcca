/** Optional values, standing in for JavaScript's `undefined` / `null`. */
module Wrappers {

  datatype Option<T> = None | Some(value: T) {

    /** The value, or `default` when absent: what a destructuring default does with `undefined`. */
    function GetOr(default: T): T {
      if Some? then value else default
    }
  }
}
