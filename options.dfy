/** Optional values: JavaScript's `null`/`undefined` beside a present value. */
module Options {

  datatype Option<+T> = None | Some(value: T) {

    /** The value when present, otherwise the default (`x ?? d`). */
    function GetOr(default: T): T {
      match this
      case Some(v) => v
      case None => default
    }
  }

  /** `x || d` for an optional number: absent, 0 (falsy) fall back to `d`. */
  function OrReal(x: Option<real>, d: real): real
  {
    if x.Some? && x.value != 0.0 then x.value else d
  }

  /** `x || d` for an optional integer. */
  function OrInt(x: Option<int>, d: int): int
  {
    if x.Some? && x.value != 0 then x.value else d
  }
}
