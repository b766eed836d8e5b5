/** The few facts about products and quotients the other modules build on. */
module Arithmetic {

  lemma MulMono(a: int, b: int, c: int)
    requires a <= b && 0 <= c
    ensures a * c <= b * c && c * a <= c * b
  {
  }

  lemma DivModUnique(a: int, b: int, q: int, r: int)
    requires 0 < b && a == q * b + r && 0 <= r < b
    ensures a / b == q && a % b == r
  {
    var x, y := a / b, a % b;
    assert a == b * x + y && 0 <= y < b;
    assert (q - x) * b == y - r;
    if q > x {
      MulMono(1, q - x, b);
    } else if q < x {
      MulMono(q - x, -1, b);
    }
  }

  /** Rounding down: the quotient is the largest integer whose product fits. */
  lemma DivBounds(a: int, b: int)
    requires 0 < b
    ensures (a / b) * b <= a < (a / b) * b + b
  {
  }

  lemma DivAtLeast(a: int, b: int, q: int)
    requires 0 < b && q * b <= a
    ensures q <= a / b
  {
    if a / b < q {
      MulMono(a / b + 1, q, b);
    }
  }

  lemma DivBelow(a: int, b: int, q: int)
    requires 0 < b && a < q * b
    ensures a / b < q
  {
    if q <= a / b {
      MulMono(q, a / b, b);
    }
  }

  lemma DivMono(a: int, c: int, b: int)
    requires 0 < b && a <= c
    ensures a / b <= c / b
  {
    DivAtLeast(c, b, a / b);
  }
}
