/** Wrapping unsigned 128-bit arithmetic. */
module Uint128 {
  import opened Arithmetic

  const MODULUS := 0x1_0000_0000_0000_0000_0000_0000_0000_0000
  const MAX_VALUE := MODULUS - 1

  type uint128 = x: int | 0 <= x < 0x1_0000_0000_0000_0000_0000_0000_0000_0000

  function Wrap(x: int): (w: uint128) {
    x % MODULUS
  }

  function Add(a: uint128, b: uint128): uint128 {
    Wrap(a + b)
  }

  function Sub(a: uint128, b: uint128): uint128 {
    Wrap(a - b)
  }

  function Mul(a: uint128, b: uint128): uint128 {
    Wrap(a * b)
  }

  function Div(a: uint128, d: int): (q: uint128)
    requires d > 0
    ensures q * d <= a < (q + 1) * d
  {
    DivideBounds(a, d);
    QuotientSmall(a, d);
    a / d
  }

  lemma {:induction false} QuotientSmall(x: int, d: int)
    requires x >= 0 && d > 0
    ensures 0 <= x / d <= x
  {
    DivideDown(x, d);
    ProductMonotone(x / d, 1, d);
  }

  lemma {:induction false} WrapExact(x: int)
    requires 0 <= x < MODULUS
    ensures Wrap(x) == x
  {
  }

  /** A sum that wraps comes out smaller than its operands, and only then. */
  lemma {:induction false} AddWraps(a: uint128, b: uint128)
    ensures Add(a, b) == if a + b < MODULUS then a + b else a + b - MODULUS
    ensures Add(a, b) < a <==> a + b >= MODULUS
  {
    if a + b >= MODULUS {
      assert (a + b) % MODULUS == (a + b - MODULUS) % MODULUS;
    }
  }

}
