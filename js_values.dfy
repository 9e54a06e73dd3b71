/** JavaScript values, as far as the mock's attribute merge can observe them:
    a property is either `undefined` or present, and `a || b` only asks
    whether `a` is truthy. */
module JsValues {

  /** An optional property: `None` is `undefined` (the property was not given). */
  datatype Option<+T> = None | Some(value: T)

  /** A JavaScript number. Only its truthiness matters here: 0, -0 and NaN
      are falsy, every other number (the infinities included) is truthy. */
  datatype JsNumber = Finite(value: real) | Infinity(negative: bool) | NaN

  /** A non-object property value of the attribute record. */
  datatype Scalar = Str(s: string) | Num(n: JsNumber)

  /** ECMAScript ToBoolean on strings and numbers. */
  predicate Truthy(v: Scalar) {
    match v
    case Str(s) => s != ""
    case Num(n) => !(n.NaN? || (n.Finite? && n.value == 0.0))
  }

  /** `o || d` for an optional `o`: the override when it is truthy, the
      default otherwise (an absent override is `undefined`, hence falsy). */
  function Or(o: Option<Scalar>, d: Scalar): (r: Scalar)
    ensures r == d || (o == Some(r) && Truthy(r))
    ensures Truthy(r) <==> (o.Some? && Truthy(o.value)) || Truthy(d)
    ensures o.Some? && Truthy(o.value) ==> r == o.value
  {
    if o.Some? && Truthy(o.value) then o.value else d
  }

  function LiftString(o: Option<string>): Option<Scalar> {
    if o.Some? then Some(Str(o.value)) else None
  }

  function LiftNumber(o: Option<JsNumber>): Option<Scalar> {
    if o.Some? then Some(Num(o.value)) else None
  }

  /** `o || d` on a string-typed property. */
  function OrString(o: Option<string>, d: string): (r: string)
    ensures Str(r) == Or(LiftString(o), Str(d))
  {
    Or(LiftString(o), Str(d)).s
  }

  /** `o || d` on a number-typed property. */
  function OrNumber(o: Option<JsNumber>, d: JsNumber): (r: JsNumber)
    ensures Num(r) == Or(LiftNumber(o), Num(d))
  {
    Or(LiftNumber(o), Num(d)).n
  }
}
