/** JavaScript number and Math semantics that the solar-system core relies on.
    JS numbers are modelled as exact reals plus NaN; infinities and rounding are not
    modelled. `Math.cos`/`Math.sin` are not definable here, so they are a value of
    type Trig, constrained where needed by the Pythagorean identity. */
module JsMath {

  /** A field a record may omit: `None` is `undefined`. */
  datatype Option<+T> = None | Some(value: T)

  /** A JS number: NaN or a (finite) real value. */
  datatype JsNum = NaN | Num(v: real)

  predicate IsNaN(a: JsNum) {
    a.NaN?
  }

  /** `a - b`: NaN if either operand is NaN. */
  function Sub(a: JsNum, b: JsNum): JsNum {
    match (a, b)
    case (Num(x), Num(y)) => Num(x - y)
    case _ => NaN
  }

  /** `a * k` for a numeric literal `k`. */
  function Scale(a: JsNum, k: real): (r: JsNum)
    ensures r.NaN? <==> a.NaN?
  {
    match a
    case Num(x) => Num(x * k)
    case NaN => NaN
  }

  /** `a > b` for a literal `b`: every comparison with NaN is false. */
  predicate Gt(a: JsNum, b: real) {
    a.Num? && a.v > b
  }

  /** `a < b` for a literal `b`: every comparison with NaN is false. */
  predicate Lt(a: JsNum, b: real) {
    a.Num? && a.v < b
  }

  /** JS truthiness of a possibly undefined number field: undefined and 0 are falsy
      (NaN, also falsy, cannot occur in a real-valued field). */
  predicate Truthy(x: Option<real>) {
    x.Some? && x.value != 0.0
  }

  /** `s || fallback` for a possibly undefined string field: undefined and "" are falsy. */
  function OrElse(s: Option<string>, fallback: string): (r: string)
    ensures s.Some? && s.value != "" ==> r == s.value
    ensures s.None? || s.value == "" ==> r == fallback
    ensures fallback != "" ==> r != ""
  {
    if s.Some? && s.value != "" then s.value else fallback
  }

  /** `Math.PI`, the double nearest to pi, written out as a decimal. */
  const Pi: real := 3.141592653589793

  /** The two trigonometric functions the animation calls. */
  datatype Trig = Trig(cos: real -> real, sin: real -> real)

  /** The only property of cosine and sine the model uses. */
  ghost predicate Pythagorean(t: Trig) {
    forall a: real :: t.cos(a) * t.cos(a) + t.sin(a) * t.sin(a) == 1.0
  }

  /** The Pythagorean assumption is consistent: some pair of functions meets it. */
  lemma PythagoreanSatisfiable()
    ensures exists t: Trig :: Pythagorean(t)
  {
    var t := Trig(a => 1.0, a => 0.0);
    assert Pythagorean(t);
  }
}
