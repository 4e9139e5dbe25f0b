/** Optional values: a JSON field or query parameter that may be absent. */
module Wrappers {

  datatype Option<+T> = None | Some(value: T) {

    /** The carried value, or `default` when absent. */
    function GetOr(default: T): T {
      match this
      case Some(v) => v
      case None => default
    }
  }

  /** A string field is falsy when it is absent or empty. */
  predicate Present(s: Option<string>) {
    s.Some? && s.value != ""
  }
}
