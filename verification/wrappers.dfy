/** Optional values: a JavaScript value that may be `undefined`. */
module Wrappers {

  datatype Option<+T> = None | Some(value: T) {

    /** JavaScript's `x ? x : fallback` once truthiness is settled: the held
        value if there is one, the fallback if not. */
    function ValueOr(fallback: T): T {
      if Some? then value else fallback
    }
  }
}
