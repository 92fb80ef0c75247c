/** Facts about products and quotients of integers. */
module Arithmetic {

  lemma {:induction false} ProductPositive(a: int, b: int)
    requires a > 0 && b > 0
    ensures a * b > 0
  {
  }

  lemma {:induction false} ProductNonNegative(a: int, b: int)
    requires a >= 0 && b >= 0
    ensures a * b >= 0
  {
  }

  lemma {:induction false} ProductMonotone(a: int, x: int, y: int)
    requires a >= 0 && x <= y
    ensures a * x <= a * y && x * a <= y * a
  {
  }

  lemma {:induction false} CancelFactor(a: int, x: int, y: int)
    requires a > 0 && a * x <= a * y
    ensures x <= y
  {
  }

  lemma {:induction false} DivideBounds(x: int, d: int)
    requires d > 0
    ensures x / d * d <= x < (x / d + 1) * d
  {
  }

  lemma {:induction false} DivideDown(a: int, b: int)
    requires a >= 0 && b > 0
    ensures 0 <= a / b && b * (a / b) <= a && b * -(a / b) >= -a
  {
    var q := a / b;
    assert a == b * q + a % b;
    assert b * -q == -(b * q);
    if q < 0 {
      ProductMonotone(b, q, -1);
      assert false;
    }
  }

  lemma {:induction false} ExactQuotient(q: nat, d: int)
    requires d > 0
    ensures q * d / d == q
  {
    var r := q * d / d;
    assert d * r <= q * d < d * r + d;
    if r < q {
      ProductMonotone(d, r + 1, q);
    } else if r > q {
      ProductMonotone(d, q + 1, r);
    }
  }

  lemma {:induction false} QuotientMonotone(x: int, y: int, d: int)
    requires d > 0 && x <= y
    ensures x / d <= y / d
  {
    if x / d > y / d {
      ProductMonotone(d, y / d + 1, x / d);
    }
  }

  lemma {:induction false} Gap(d: int, t: int)
    requires d > 0
    ensures t >= 1 ==> d * t >= d
    ensures t <= -1 ==> d * t <= -d
  {
  }

  lemma {:induction false} Remainder(a: int, d: int, q: int)
    requires d > 0 && 0 <= a - q * d < d
    ensures a % d == a - q * d
  {
    var t := a / d - q;
    Gap(d, t);
    assert d * t == (a - q * d) - a % d;
  }
}
