/** The numbers the front-end reads from its form fields with `parseInt` and
    `parseFloat`: a value, or NaN when the text does not parse. Every ordered
    comparison with NaN is false, as in JavaScript. Infinities and the rounding
    of IEEE doubles are not represented. */
module JsNumbers {

  datatype JsNum = NaN | Num(v: real)

  predicate Less(a: JsNum, b: real)
  {
    a.Num? && a.v < b
  }

  predicate Greater(a: JsNum, b: real)
  {
    a.Num? && a.v > b
  }

  predicate AtMost(a: JsNum, b: real)
  {
    a.Num? && a.v <= b
  }

  /** `Number.isInteger(a)`. */
  predicate IsInteger(a: JsNum)
  {
    a.Num? && a.v == a.v.Floor as real
  }

  /** `a + b`: NaN is absorbing. */
  function Add(a: JsNum, b: JsNum): (r: JsNum)
    ensures r.Num? <==> a.Num? && b.Num?
  {
    if a.Num? && b.Num? then Num(a.v + b.v) else NaN
  }

  /** `xs.reduce((a, b) => a + b, 0)`. */
  function SumAll(xs: seq<JsNum>): JsNum
  {
    if xs == [] then Num(0.0) else Add(SumAll(xs[..|xs| - 1]), xs[|xs| - 1])
  }

  /** `a || 0`: NaN (and 0) become 0. */
  function OrZero(a: JsNum): real
  {
    if a.Num? then a.v else 0.0
  }

  /** `Math.abs(a - 1) > 0.01`, the front-end's probability-sum test. */
  predicate OffByMoreThanTolerance(a: JsNum)
  {
    a.Num? && (a.v - 1.0 > 0.01 || 1.0 - a.v > 0.01)
  }

  /** A sum of parsed numbers is a number exactly when every summand is. */
  lemma {:induction false} SumAllIsNumber(xs: seq<JsNum>)
    ensures SumAll(xs).Num? <==> forall i :: 0 <= i < |xs| ==> xs[i].Num?
  {
    if xs != [] {
      SumAllIsNumber(xs[..|xs| - 1]);
      assert forall i :: 0 <= i < |xs| - 1 ==> xs[..|xs| - 1][i] == xs[i];
    }
  }
}
