/** Optional values: a missing document, a missing header, an absent body key. */
module Wrappers {

  datatype Option<+T> = None | Some(value: T) {

    /** The wrapped value, or `default` when there is none. */
    function GetOr(default: T): T {
      match this
      case Some(v) => v
      case None => default
    }

    /** JavaScript-style override: `this` when present, otherwise `fallback`. */
    function Or(fallback: Option<T>): Option<T> {
      if Some? then this else fallback
    }
  }
}
