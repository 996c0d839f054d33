/** How the script's JavaScript values are read, reduced to the distinctions its code draws. */
module JsValues {

  /** A value read through optional chaining (`?.`) or defaulted with `??`: `null` and
      `undefined` behave alike there, so they are one case, `None`. A present falsy value such
      as `0` is `Some`, since `??` keeps it; the script's truthiness tests (`!!x`) are read as
      presence tests on fields that hold dates. */
  datatype Option<+T> = None | Some(value: T) {

    /** `x ?? fallback` */
    function GetOr(fallback: T): T {
      if Some? then value else fallback
    }
  }

  /** A property read whose outcomes a strict comparison against `null` tells apart:
      a missing property is `undefined`, which is not `=== null`. */
  datatype Nullable<+T> = Undefined | Null | Defined(value: T)
}
