/** The handful of JavaScript values the application passes around:
    numbers as `+input.value` produces them, and the location name,
    which is either a string or `undefined` until a geocode succeeds. */
module JsValues {

  datatype Option<+T> = None | Some(value: T)

  /** A JavaScript number. Reals stand for the finite doubles (rounding is
      not modelled); the three non-finite values are kept apart because
      `Number.isFinite` and `> 0` treat them differently. */
  datatype JsNumber = Finite(value: real) | NaN | PositiveInfinity | NegativeInfinity

  /** `Number.isFinite(n)` */
  predicate IsFinite(n: JsNumber) {
    n.Finite?
  }

  /** `n > 0`: false for NaN, true for +Infinity. */
  predicate IsPositive(n: JsNumber) {
    match n
    case Finite(v) => v > 0.0
    case PositiveInfinity => true
    case _ => false
  }

  /** A value that is either a string or `undefined`. */
  datatype JsName = Undefined | Str(text: string)

  /** What a template literal `${name}` inserts for the value. */
  function Render(name: JsName): string {
    match name
    case Undefined => "undefined"
    case Str(s) => s
  }
}
