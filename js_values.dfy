/** JavaScript values as the two extensions see them.
    `undefined` is `None`; numbers are modelled as mathematical reals
    (IEEE rounding, NaN and the infinities are outside this model). */
module JsValues {

  /** A variable that is either still `undefined` or holds a value. */
  datatype Option<+T> = None | Some(value: T)

  const TwoTo31: int := 0x8000_0000
  const TwoTo32: int := 0x1_0000_0000

  /** Rounding toward zero, the first step of ECMAScript's ToInt32. */
  function Truncate(x: real): (r: int)
    ensures 0.0 <= x ==> r as real <= x < r as real + 1.0
    ensures x < 0.0 ==> r as real - 1.0 < x <= r as real
  {
    if 0.0 <= x then x.Floor else -((-x).Floor)
  }

  /** ECMAScript ToInt32, the conversion behind `x | 0`: truncate toward
      zero, then wrap into the signed 32-bit range. */
  function ToInt32(x: real): (r: int)
    ensures -TwoTo31 <= r < TwoTo31
    ensures (r - Truncate(x)) % TwoTo32 == 0
    ensures -TwoTo31 <= Truncate(x) < TwoTo31 ==> r == Truncate(x)
  {
    var m := Truncate(x) % TwoTo32;
    if m >= TwoTo31 then m - TwoTo32 else m
  }
}
