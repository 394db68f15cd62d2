/** Java's narrowing conversion from a floating-point value to `int`. */
module JavaCasts {

  /** `(int) x`: Java rounds toward zero (the integer part of `x`), unlike `Floor`,
      which rounds toward negative infinity. NaN and saturation at the `int`
      bounds are not modelled (all values here are small and finite). */
  function Trunc(x: real): (r: int)
    ensures 0.0 <= x ==> 0 <= r && r as real <= x < r as real + 1.0
    ensures x < 0.0 ==> r <= 0 && r as real - 1.0 < x <= r as real
  {
    if x >= 0.0 then x.Floor else -((-x).Floor)
  }

  /** For non-negative values, truncation is the greatest integer not above `x`. */
  lemma {:induction false} TruncIsGreatestBelow(x: real, n: int)
    requires 0.0 <= x
    ensures n as real <= x <==> n <= Trunc(x)
  {
    var t := Trunc(x);
    if n <= t {
      assert n as real <= t as real;
    } else {
      assert t + 1 <= n;
      assert (t + 1) as real <= n as real;
    }
  }
}
