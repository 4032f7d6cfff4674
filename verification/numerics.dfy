/** Numeric helpers and failure wrappers shared by the model-based RL modules.

    Floating-point values of the source are modelled as exact reals; Python's
    `int(x)` on a float truncates toward zero, which is `Trunc` below. */
module Numerics {

  datatype Option<+T> = None | Some(value: T)

  datatype Result<+T, +E> = Ok(value: T) | Err(error: E)

  /** A row of floats, and a two-dimensional array as its rows. */
  type Row = seq<real>
  type Matrix = seq<Row>

  /** Every row has `w` entries. */
  predicate Width<T>(rows: seq<seq<T>>, w: nat) {
    forall i :: 0 <= i < |rows| ==> |rows[i]| == w
  }

  /** Python's `int(x)` for a float `x`: truncation toward zero. */
  function Trunc(x: real): (r: int)
    ensures x >= 0.0 ==> r as real <= x < r as real + 1.0
    ensures x < 0.0 ==> r as real - 1.0 < x <= r as real
  {
    if x >= 0.0 then x.Floor else -((-x).Floor)
  }

  /** Truncation leaves an integer-valued real unchanged. */
  lemma TruncOfInt(k: int)
    ensures Trunc(k as real) == k
  {
  }

  /** Truncation toward zero is monotone. */
  lemma TruncMonotone(x: real, y: real)
    requires x <= y
    ensures Trunc(x) <= Trunc(y)
  {
    if 0.0 <= x {
      assert Trunc(x) as real <= x <= y < Trunc(y) as real + 1.0;
    } else if y < 0.0 {
      assert Trunc(x) as real - 1.0 < x <= y <= Trunc(y) as real;
    } else {
      assert Trunc(x) <= 0 <= Trunc(y);
    }
  }

  /** A fraction in `[0, 1]` of a non-negative quantity stays within `[0, x]`. */
  lemma ScaledWithin(r: real, x: real)
    requires 0.0 <= r <= 1.0 && 0.0 <= x
    ensures 0.0 <= r * x <= x
  {
    assert x - r * x == (1.0 - r) * x;
  }

  /** A quotient by a positive real is non-negative for a non-negative
      dividend, and at least 1 once the dividend reaches the divisor. */
  lemma QuotientBounds(a: real, b: real)
    requires 0.0 < b
    ensures 0.0 <= a ==> 0.0 <= a / b
    ensures b <= a ==> 1.0 <= a / b
  {
    assert a == (a / b) * b;
  }

  function Min(a: int, b: int): int { if a <= b then a else b }
}
