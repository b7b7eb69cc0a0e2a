/** Small helpers shared by the models: an Option type (a field that is present or
    `undefined`) and JavaScript's `Math.sign`, `Math.abs`, `Math.min`, `Math.max` on reals.
    NaN, infinities and negative zero are not modelled. */
module Common {

  datatype Option<+T> = None | Some(value: T)

  /** The value `o` carries, or `d` when it is undefined. */
  function Pick<T>(o: Option<T>, d: T): T
  {
    if o.Some? then o.value else d
  }

  /** `Math.sign`: -1, 0 or 1 according to the sign of `x`. */
  function Sign(x: real): (s: int)
    ensures -1 <= s <= 1
    ensures s == 1 <==> x > 0.0
    ensures s == -1 <==> x < 0.0
  {
    if x > 0.0 then 1 else if x < 0.0 then -1 else 0
  }

  /** `Math.abs`. */
  function Abs(x: real): (r: real)
    ensures r >= 0.0 && (r == x || r == -x)
  {
    if x < 0.0 then -x else x
  }

  /** `Math.min` of two reals. */
  function Min(a: real, b: real): (r: real)
    ensures r <= a && r <= b && (r == a || r == b)
  {
    if a <= b then a else b
  }

  /** `Math.max` of two reals. */
  function Max(a: real, b: real): (r: real)
    ensures r >= a && r >= b && (r == a || r == b)
  {
    if a >= b then a else b
  }

  /** `b` raised to the natural power `n`. */
  function Pow(b: real, n: nat): real
  {
    if n == 0 then 1.0 else b * Pow(b, n - 1)
  }
}
