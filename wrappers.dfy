/** The one failure-carrying wrapper the model needs: JavaScript's `null`/`undefined`
    results (a regex with no match, a lookup that finds nothing, a cancelled prompt). */
module Wrappers {

  datatype Option<+T> = None | Some(value: T) {

    /** The wrapped value, or `default` when there is none (JavaScript's `x || default`
        for values that are never falsy when present). */
    function GetOr(default: T): T {
      match this
      case Some(v) => v
      case None => default
    }
  }
}
