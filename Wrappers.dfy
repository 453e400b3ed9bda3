/** Optional values: the model's stand-in for JavaScript's `null` and `undefined`. */
module Wrappers {

  datatype Option<+T> = None | Some(value: T) {

    /** The wrapped value, or `default` when there is none (JavaScript's `x || default`
        for values that are never falsy). */
    function GetOr(default: T): T {
      match this
      case Some(v) => v
      case None => default
    }
  }
}

/** JavaScript truthiness of the optional values the components test with `if (x)` or `!x`. */
module Js {
  import opened Wrappers

  /** A string is truthy unless it is `null`/`undefined` or the empty string. */
  predicate TruthyString(s: Option<string>) {
    s.Some? && s.value != ""
  }

  /** A boolean is truthy only when it is present and `true`. */
  predicate TruthyBool(b: Option<bool>) {
    b == Some(true)
  }
}
