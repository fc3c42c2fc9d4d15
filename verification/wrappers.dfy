/** Optional values: JavaScript's `undefined`/`null` for an absent field or value. */
module Wrappers {

  datatype Option<+T> = None | Some(value: T) {

    /** The value if present, otherwise `default`. */
    function GetOr(default: T): T {
      match this
      case Some(v) => v
      case None => default
    }

    /** This value if present, otherwise `other`: the later of two spreads wins. */
    function OrElse(other: Option<T>): Option<T> {
      if Some? then this else other
    }
  }
}
