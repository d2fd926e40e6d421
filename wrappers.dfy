/** Optional values, standing for TypeScript's `T | null` and `T | undefined`. */
module Wrappers {

  datatype Option<+T> = None | Some(value: T) {

    /** The wrapped value, or `default` when there is none. */
    function GetOr(default: T): T {
      match this
      case Some(v) => v
      case None => default
    }
  }

  /** An optional string JavaScript treats as true: present and non-empty. */
  predicate Truthy(o: Option<string>) { o.Some? && o.value != "" }
}
