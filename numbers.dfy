/** JavaScript numbers as the forms produce them: the result of `Number(...)`
    or `parseFloat(...)` on input text is either `NaN` or a finite value,
    here an exact rational. */
module Numbers {
  datatype JsNumber = NaN | Num(value: real)

  /** JavaScript truthiness of a number: `0` and `NaN` are falsy. */
  predicate Truthy(x: JsNumber)
  {
    x.Num? && x.value != 0.0
  }

  /** `x || 0`: the value itself when it is a number (a zero stays zero),
      and zero for `NaN`. */
  function OrZero(x: JsNumber): (r: real)
    ensures x.Num? ==> r == x.value
    ensures x.NaN? ==> r == 0.0
  {
    if Truthy(x) then x.value else 0.0
  }

  /** `Math.round(x)`: the nearest integer, halves rounded up (so
      `Math.round(-2.5)` is -2). */
  function Round(x: real): (r: int)
    ensures r as real - 0.5 <= x < r as real + 0.5
  {
    (x + 0.5).Floor
  }
}
