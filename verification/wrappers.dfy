/** Python's `None`-or-value, used for optional record fields and results. */
module Wrappers {

  datatype Option<+T> = None | Some(value: T) {

    /** The value, or `default` when absent (Python's `d.get(key, default)`). */
    function GetOr(default: T): T {
      match this
      case Some(v) => v
      case None => default
    }
  }

  /** Python truthiness of an optional number: `None` and `0.0` are falsy. */
  predicate Truthy(x: Option<real>) {
    x.Some? && x.value != 0.0
  }
}
