/** Conversions from the backend's exact decimals (modelled as `real`) to 32-bit integers,
    as `ToPrimitive::to_i32` performs them: the fraction is cut off toward zero and a value
    outside the `i32` range gives no result. */
module Decimals {
  import opened Wrappers

  const I32Min: int := -0x8000_0000
  const I32Max: int := 0x7fff_ffff

  predicate InI32(n: int) {
    I32Min <= n <= I32Max
  }

  /** The integer part of `x`, rounding toward zero. */
  function Trunc(x: real): (r: int)
    ensures 0.0 <= x ==> r as real <= x < r as real + 1.0
    ensures x < 0.0 ==> r as real - 1.0 < x <= r as real
  {
    if x >= 0.0 then x.Floor else -((-x).Floor)
  }

  /** `to_i32()`: `Some` of the truncated value when it fits in 32 bits, `None` otherwise. */
  function ToI32(x: real): (r: Option<int>)
    ensures r.Some? <==> InI32(Trunc(x))
    ensures r.Some? ==> r.value == Trunc(x)
  {
    var t := Trunc(x);
    if InI32(t) then Some(t) else None
  }

  predicate IsWhole(x: real) {
    x == x.Floor as real
  }

  /** A non-negative whole number converts without loss. */
  lemma TruncWhole(x: real)
    requires 0.0 <= x && IsWhole(x)
    ensures Trunc(x) as real == x
  {
  }
}
