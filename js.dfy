/** The few pieces of JavaScript number semantics that the two pre-save hooks rely on. */
module Js {

  /** A document field that may be absent (`undefined`) or hold a value. */
  datatype Option<+T> = None | Some(value: T) {

    /** The value, or `default` when the field is absent.  Over numbers this is both
        `x || 0` (an absent field and a present 0 both read as 0) and a schema default. */
    function GetOr(default: T): T {
      match this
      case Some(v) => v
      case None => default
    }
  }

  /** `x && x > 0` on a number field: absent and 0 are falsy, any other value is compared with 0.
      The test holds exactly when the field, read through `x || 0`, is positive. */
  predicate IsPositive(x: Option<int>): (b: bool)
    ensures b <==> x.GetOr(0) > 0
  {
    x.Some? && x.value > 0
  }

  /** `Math.min(a, b)` over exact reals. */
  function Min(a: real, b: real): (r: real)
    ensures r <= a && r <= b
    ensures r == a || r == b
  {
    if a <= b then a else b
  }
}
