/**
 * Numeric helpers with the meaning of the Rust calls the game uses:
 * `f32::clamp`, `f32::max`/`min`, `usize::min`/`max` and `signum`.
 * Floating point is modelled by `real` (no rounding, no NaN).
 */
module Numeric {
  /** `x.clamp(lo, hi)`: the nearest value to `x` inside `[lo, hi]`. */
  function Clamp(x: real, lo: real, hi: real): (r: real)
    requires lo <= hi
    ensures lo <= r <= hi
    ensures lo <= x <= hi ==> r == x
    ensures x < lo ==> r == lo
    ensures hi < x ==> r == hi
  {
    if x < lo then lo else if x > hi then hi else x
  }

  function MaxReal(a: real, b: real): (r: real)
    ensures r >= a && r >= b && (r == a || r == b)
  {
    if a >= b then a else b
  }

  function MinReal(a: real, b: real): (r: real)
    ensures r <= a && r <= b && (r == a || r == b)
  {
    if a <= b then a else b
  }

  function Min(a: int, b: int): (r: int)
    ensures r <= a && r <= b && (r == a || r == b)
  {
    if a <= b then a else b
  }

  function Max(a: int, b: int): (r: int)
    ensures r >= a && r >= b && (r == a || r == b)
  {
    if a >= b then a else b
  }

  /** `i32::signum`: -1, 0 or 1 with the sign of `x`. */
  function Signum(x: int): (r: int)
    ensures -1 <= r <= 1
    ensures (r > 0 <==> x > 0) && (r < 0 <==> x < 0)
  {
    if x > 0 then 1 else if x < 0 then -1 else 0
  }

  /** `usize::saturating_sub`. */
  function SaturatingSub(a: nat, b: nat): (r: nat)
    ensures r <= a
    ensures b <= a ==> r + b == a
    ensures a < b ==> r == 0
  {
    if a >= b then a - b else 0
  }

  /** Multiplying by a non-negative factor keeps the order. */
  lemma MulMonotone(a: real, x: real, y: real)
    requires a >= 0.0 && x <= y
    ensures a * x <= a * y
  {
    assert a * y - a * x == a * (y - x);
  }

  /** Dividing by a positive divisor keeps the order. */
  lemma DivMonotone(x: real, y: real, c: real)
    requires c > 0.0 && x <= y
    ensures x / c <= y / c
  {
    assert y / c - x / c == (y - x) / c;
  }

  /** A non-negative amount shared by more parts gives each part no more. */
  lemma DivByLargerIsSmaller(d: real, c1: real, c2: real)
    requires d >= 0.0 && 0.0 < c1 <= c2
    ensures d / c2 <= d / c1
  {
    var x := d / c1;
    var y := d / c2;
    assert x * c1 == d && y * c2 == d;
    assert x >= 0.0;
    MulMonotone(x, c1, c2);
    assert y * c2 <= x * c2;
    DivMonotone(y * c2, x * c2, c2);
    assert y * c2 / c2 == y && x * c2 / c2 == x;
  }
}
