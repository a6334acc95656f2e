/** Optional values: JavaScript's `null`/`undefined` made explicit. */
module Common {

  datatype Option<+T> = None | Some(value: T) {

    /** The value, or `default` when absent (`x ?? default`). */
    function GetOr(default: T): T {
      match this
      case Some(v) => v
      case None => default
    }
  }

  /** JavaScript truthiness of an optional string: `null` and `""` are falsy. */
  predicate Filled(s: Option<string>) {
    s.Some? && s.value != ""
  }

  /** JavaScript truthiness of an optional integer: `null` and `0` are falsy. */
  predicate NonZero(n: Option<int>) {
    n.Some? && n.value != 0
  }

  /** `x || 0` for an optional number. */
  function OrZero(n: Option<real>): real {
    if n.Some? then n.value else 0.0
  }

  /** `x || 0` for an optional integer counter. */
  function OrZeroInt(n: Option<int>): int {
    if n.Some? then n.value else 0
  }
}
