/** JavaScript values as the form component sees them: the number produced by
    `Number(...)` and the value read out of the prediction response, together
    with the truthiness rule that the JSX conditional applies to them. */
module Js {

  /** An IEEE double as far as the component distinguishes it. Finite values are
      kept as reals; rounding to 53 bits is not modelled. */
  datatype JsNumber = NaN | PosInfinity | NegInfinity | Finite(value: real)

  /** A value decoded from JSON (or `undefined` for a missing property).
      Objects and arrays are lumped together: every one of them is truthy. */
  datatype JsValue =
    | Null
    | Undefined
    | Bool(b: bool)
    | Num(n: JsNumber)
    | Str(s: string)
    | Composite

  /** JavaScript truthiness: `null`, `undefined`, `false`, `NaN`, `0` and `""`
      are falsy, everything else is truthy. */
  predicate Truthy(v: JsValue) {
    match v
    case Null => false
    case Undefined => false
    case Bool(b) => b
    case Num(n) => n != NaN && n != Finite(0.0)
    case Str(s) => s != ""
    case Composite => true
  }
}
