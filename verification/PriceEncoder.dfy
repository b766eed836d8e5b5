/** The square-root price of a pool, as a fixed-point number with 96 fractional bits. */
module PriceEncoder {
  import opened Wrappers
  import opened Arithmetic

  // Decimals are kept to 40 places, so they are integers in units of 1 / PLACES.
  const HALF_PLACES: int := 100_000_000_000_000_000_000
  const PLACES: int := 10_000_000_000_000_000_000_000_000_000_000_000_000_000
  const Q96: int := 0x1_0000_0000_0000_0000_0000_0000

  /** What rounding the decimals twice can add up to, in units of 2^-96. */
  const ERROR: int := Q96 / HALF_PLACES + 2

  /** Half-up division of two integers, in units of 1 / d. */
  function Quotient(d: int, r1: nat, r0: nat): nat
    requires d > 0 && r0 > 0
  {
    MulMono(0, r1, d);
    DivAtLeast(2 * (r1 * d) + r0, 2 * r0, 0);
    (2 * (r1 * d) + r0) / (2 * r0)
  }

  /** The integer square root, by way of the root of a quarter. */
  function FloorSqrt(n: nat): (s: nat)
    ensures s * s <= n < (s + 1) * (s + 1)
  {
    if n == 0 then 0
    else
      var half := FloorSqrt(n / 4);
      RootOfQuarter(n, half);
      if (2 * half + 1) * (2 * half + 1) <= n then 2 * half + 1 else 2 * half
  }

  lemma RootOfQuarter(n: nat, half: nat)
    requires half * half <= n / 4 < (half + 1) * (half + 1)
    ensures (2 * half) * (2 * half) <= n < (2 * half + 2) * (2 * half + 2)
  {
    assert (2 * half) * (2 * half) == 4 * (half * half);
    assert (2 * half + 2) * (2 * half + 2) == 4 * ((half + 1) * (half + 1));
  }

  /** s is the integer nearest to the square root of n, which is never half-way. */
  predicate Nearest(s: nat, n: nat) {
    (s == 0 || s * s - s < n) && n <= s * s + s
  }

  function RoundedSqrt(n: nat): (s: nat)
    ensures Nearest(s, n)
  {
    var s := FloorSqrt(n);
    NearestAbove(s, n);
    if n > s * s + s then s + 1 else s
  }

  lemma NearestAbove(s: nat, n: nat)
    requires s * s <= n < (s + 1) * (s + 1)
    ensures Nearest(if n > s * s + s then s + 1 else s, n)
  {
    Binomial(s, 1);
  }

  lemma Binomial(x: int, y: int)
    ensures (x + y) * (x + y) == x * x + 2 * (x * y) + y * y
  {
  }

  /** The square root of a decimal, again in units of 1 / d. */
  function Root(d: int, q: nat): nat
    requires d > 0
  {
    MulMono(0, q, d);
    RoundedSqrt(q * d)
  }

  /** The root times m, rounded down to an integer. */
  function Scaled(d: int, m: nat, s: nat): nat
    requires d > 0
  {
    MulMono(0, s, m);
    DivAtLeast(s * m, d, 0);
    s * m / d
  }

  function EncodeIn(d: int, m: nat, r1: nat, r0: nat): nat
    requires d > 0 && r0 > 0
  {
    Scaled(d, m, Root(d, Quotient(d, r1, r0)))
  }

  /** encodePriceSqrtX96: nothing divided by zero is an integer. */
  function Encode(r1: nat, r0: nat): Result<nat> {
    if r0 == 0 then Failure else Success(EncodeIn(PLACES, Q96, r1, r0))
  }

  // ---------- order ----------

  lemma QuotientBounds(d: int, r1: nat, r0: nat)
    requires d > 0 && r0 > 0
    ensures var q := Quotient(d, r1, r0); 2 * (q * r0) - r0 <= 2 * (r1 * d) < 2 * (q * r0) + r0
  {
    DivBounds(2 * (r1 * d) + r0, 2 * r0);
    var q := Quotient(d, r1, r0);
    assert q * (2 * r0) == 2 * (q * r0);
  }

  lemma QuotientMonotone(d: int, r1: nat, r0: nat, s1: nat, s0: nat)
    requires d > 0 && 0 < s0 <= r0 && r1 <= s1
    ensures Quotient(d, r1, r0) <= Quotient(d, s1, s0)
  {
    var q := Quotient(d, r1, r0);
    if q > 0 {
      QuotientBounds(d, r1, r0);
      MulMono(r1, s1, d);
      MulMono(s0, r0, 2 * q - 1);
      Halves(q, s0);
      Halves(q, r0);
      DivAtLeast(2 * (s1 * d) + s0, 2 * s0, q);
    }
  }

  lemma Halves(q: int, r: int)
    ensures q * (2 * r) == (2 * q - 1) * r + r && (2 * q - 1) * r == 2 * (q * r) - r
  {
  }

  lemma NearestMonotone(s: nat, n: nat, t: nat, m: nat)
    requires Nearest(s, n) && Nearest(t, m) && n <= m
    ensures s <= t
  {
    assert (t + 1) * t == t * t + t && s * (s - 1) == s * s - s;
    if s > t {
      MulMono(t + 1, s, t);
      MulMono(t, s - 1, s);
    }
  }

  lemma EncodeInMonotone(d: int, m: nat, r1: nat, r0: nat, s1: nat, s0: nat)
    requires d > 0 && 0 < s0 <= r0 && r1 <= s1
    ensures EncodeIn(d, m, r1, r0) <= EncodeIn(d, m, s1, s0)
  {
    var q, p := Quotient(d, r1, r0), Quotient(d, s1, s0);
    QuotientMonotone(d, r1, r0, s1, s0);
    MulMono(q, p, d);
    NearestMonotone(Root(d, q), q * d, Root(d, p), p * d);
    MulMono(Root(d, q), Root(d, p), m);
    DivMono(Root(d, q) * m, Root(d, p) * m, d);
  }

  /** The price rises with the second reserve and falls with the first. */
  lemma EncodeMonotone(r1: nat, r0: nat, s1: nat, s0: nat)
    requires 0 < s0 <= r0 && r1 <= s1
    ensures Encode(r1, r0).Success? && Encode(s1, s0).Success?
    ensures Encode(r1, r0).value <= Encode(s1, s0).value
  {
    EncodeInMonotone(PLACES, Q96, r1, r0, s1, s0);
  }

  // ---------- scale ----------

  lemma DivScale(a: nat, b: int, k: int)
    requires b > 0 && k > 0
    ensures k * b > 0 && (k * a) / (k * b) == a / b
  {
    MulMono(1, k, b);
    MulMono(a % b + 1, b, k);
    MulMono(0, a % b, k);
    assert a == (a / b) * b + a % b;
    assert k * a == (a / b) * (k * b) + k * (a % b);
    DivModUnique(k * a, k * b, a / b, k * (a % b));
  }

  /** Only the ratio counts: the price is the same in any unit, and fails in none or all. */
  lemma EncodeScaleFree(r1: nat, r0: nat, k: nat)
    requires k > 0
    ensures k * r1 >= 0 && k * r0 >= 0 && Encode(k * r1, k * r0) == Encode(r1, r0)
  {
    MulMono(0, r1, k);
    MulMono(0, r0, k);
    if r0 > 0 {
      MulMono(1, r0, k);
      MulMono(0, r1, PLACES);
      DivScale(2 * (r1 * PLACES) + r0, 2 * r0, k);
      assert k * (2 * (r1 * PLACES) + r0) == 2 * (k * r1 * PLACES) + k * r0;
      assert k * (2 * r0) == 2 * (k * r0);
      assert Quotient(PLACES, k * r1, k * r0) == Quotient(PLACES, r1, r0);
    }
  }

  // ---------- exact prices ----------

  lemma NearestOfSquare(s: nat, k: nat)
    requires k * k >= 0 && Nearest(s, k * k)
    ensures s == k
  {
    assert Nearest(k, k * k);
    NearestMonotone(s, k * k, k, k * k);
    NearestMonotone(k, k * k, s, k * k);
  }

  lemma QuotientOfSquare(d: int, k: nat, r0: nat)
    requires d > 0 && r0 > 0
    ensures k * k * r0 >= 0 && Quotient(d, k * k * r0, r0) == k * k * d
  {
    MulMono(0, k, k);
    MulMono(0, k * k, r0);
    assert 2 * (k * k * r0 * d) + r0 == (k * k * d) * (2 * r0) + r0;
    DivModUnique(2 * (k * k * r0 * d) + r0, 2 * r0, k * k * d, r0);
  }

  lemma EncodeInSquare(d: int, m: nat, k: nat, r0: nat)
    requires d > 0 && r0 > 0
    ensures k * k * r0 >= 0 && EncodeIn(d, m, k * k * r0, r0) == k * m
  {
    QuotientOfSquare(d, k, r0);
    MulMono(0, k, d);
    SquareProducts(d, m, k);
    NearestOfSquare(RoundedSqrt((k * d) * (k * d)), k * d);
    DivModUnique((k * d) * m, d, k * m, 0);
  }

  lemma SquareProducts(d: int, m: int, k: int)
    ensures k * k * d * d == (k * d) * (k * d) && (k * d) * m == (k * m) * d
  {
  }

  /** A perfect square is encoded without any error. */
  lemma EncodeSquare(k: nat, r0: nat)
    requires r0 > 0
    ensures k * k * r0 >= 0 && Encode(k * k * r0, r0) == Success(k * 0x1_0000_0000_0000_0000_0000_0000)
  {
    EncodeInSquare(PLACES, Q96, k, r0);
  }

  /** The price step by step: the quotient is rounded half up to 40 places, its root to the
      nearest 40 places, and the root times 2^96 down. */
  lemma EncodeRounds(r1: nat, r0: nat) returns (q: nat, s: nat)
    requires r0 > 0
    ensures var places := 10_000_000_000_000_000_000_000_000_000_000_000_000_000;
            var q96 := 0x1_0000_0000_0000_0000_0000_0000;
            && 2 * (q * r0) - r0 <= 2 * (r1 * places) < 2 * (q * r0) + r0
            && (s == 0 || s * s - s < q * places) && q * places <= s * s + s
            && Encode(r1, r0).Success?
            && Encode(r1, r0).value * places <= s * q96 < (Encode(r1, r0).value + 1) * places
  {
    q := Quotient(PLACES, r1, r0);
    s := Root(PLACES, q);
    QuotientBounds(PLACES, r1, r0);
    DivBounds(s * Q96, PLACES);
  }

  /** Encoding fails exactly when the first reserve is zero; decimals have 40 places. */
  lemma EncodeFailsExactly(r1: nat, r0: nat)
    ensures Encode(r1, r0).Failure? <==> r0 == 0
    ensures r0 == 1 ==> Quotient(PLACES, r1, r0) == r1 * 10_000_000_000_000_000_000_000_000_000_000_000_000_000
    ensures ERROR == 0x1_0000_0000_0000_0000_0000_0000 / 100_000_000_000_000_000_000 + 2
  {
    if r0 == 1 {
      DivModUnique(2 * (r1 * PLACES) + 1, 2, r1 * PLACES, 1);
    }
  }

  // ---------- error ----------

  /** g is at least the exact price sqrt(r1 / r0) * m; compared by the squares. */
  predicate AtLeastPrice(g: nat, m: nat, r1: nat, r0: nat) {
    r1 * (m * m) <= (g * g) * r0
  }

  predicate AtMostPrice(g: nat, m: nat, r1: nat, r0: nat) {
    (g * g) * r0 <= r1 * (m * m)
  }

  /** From a bound t on the root to a bound g on the price, squared: upwards. */
  lemma RootAbove(d: int, m: nat, r1: nat, r0: nat, t: nat, g: nat)
    requires d > 0 && r1 * (d * d) <= (t * t) * r0 && t * m <= g * d
    ensures AtLeastPrice(g, m, r1, r0)
  {
    MulMono(r1 * (d * d), (t * t) * r0, m * m);
    MulMono(0, t, m);
    MulMono(t * m, g * d, t * m);
    MulMono(t * m, g * d, g * d);
    MulMono((t * m) * (t * m), (g * d) * (g * d), r0);
    Squares(t, m, r0);
    Squares(g, d, r0);
    Squares(1, 1, r1);
    assert r1 * (d * d) * (m * m) == r1 * (m * m) * (d * d);
    assert (t * t) * r0 * (m * m) == (t * m) * (t * m) * r0;
    Cancel(r1 * (m * m), (g * g) * r0, d);
  }

  lemma Squares(x: int, y: int, c: int)
    ensures (x * y) * (x * y) * c == (x * x) * c * (y * y)
  {
    assert (x * y) * (x * y) == (x * x) * (y * y);
    assert (x * x) * (y * y) * c == (x * x) * c * (y * y);
  }

  lemma Cancel(x: int, y: int, d: int)
    requires d > 0 && x * (d * d) <= y * (d * d)
    ensures x <= y
  {
    MulMono(1, d, d);
    if x > y {
      MulMono(y + 1, x, d * d);
    }
  }

  /** From a bound t on the root to a bound g on the price, squared: downwards. */
  lemma RootBelow(d: int, m: nat, r1: nat, r0: nat, t: nat, g: nat)
    requires d > 0 && (t * t) * r0 <= r1 * (d * d) && g * d <= t * m
    ensures AtMostPrice(g, m, r1, r0)
  {
    MulMono((t * t) * r0, r1 * (d * d), m * m);
    MulMono(0, g, d);
    MulMono(g * d, t * m, g * d);
    MulMono(g * d, t * m, t * m);
    MulMono((g * d) * (g * d), (t * m) * (t * m), r0);
    Squares(t, m, r0);
    Squares(g, d, r0);
    assert r1 * (d * d) * (m * m) == r1 * (m * m) * (d * d);
    Cancel((g * g) * r0, r1 * (m * m), d);
  }

  /** The ratio of the reserves lies below the square of whatever is above the decimal. */
  lemma RatioBelow(d: int, r1: nat, r0: nat, q: nat, t: nat)
    requires d > 0 && r0 > 0 && 2 * (r1 * d) <= 2 * (q * r0) + r0
    requires 2 * (q * d) + d <= 2 * (t * t)
    ensures r1 * (d * d) <= (t * t) * r0
  {
    MulMono(2 * (r1 * d), 2 * (q * r0) + r0, d);
    MulMono(2 * (q * d) + d, 2 * (t * t), r0);
    RatioProducts(d, r1, r0, q, t);
  }

  lemma RatioAbove(d: int, r1: nat, r0: nat, q: nat, t: nat)
    requires d > 0 && r0 > 0 && 2 * (q * r0) - r0 <= 2 * (r1 * d)
    requires 2 * (t * t) <= 2 * (q * d) - d
    ensures (t * t) * r0 <= r1 * (d * d)
  {
    MulMono(2 * (q * r0) - r0, 2 * (r1 * d), d);
    MulMono(2 * (t * t), 2 * (q * d) - d, r0);
    RatioProducts(d, r1, r0, q, t);
  }

  lemma RatioProducts(d: int, r1: int, r0: int, q: int, t: int)
    ensures 2 * (r1 * d) * d == 2 * (r1 * (d * d))
    ensures (2 * (q * r0) + r0) * d == (2 * (q * d) + d) * r0
    ensures (2 * (q * r0) - r0) * d == (2 * (q * d) - d) * r0
    ensures 2 * (t * t) * r0 == 2 * ((t * t) * r0)
  {
  }

  /** Moving the root up by t moves the price up by at most b. */
  lemma PriceAbove(d: int, m: nat, r1: nat, r0: nat, t: nat, b: nat)
    requires d > 0 && r0 > 0 && t * m <= (b - 1) * d
    requires var q := Quotient(d, r1, r0); var s := Root(d, q); 2 * (q * d) + d <= 2 * ((s + t) * (s + t))
    ensures AtLeastPrice(EncodeIn(d, m, r1, r0) + b, m, r1, r0)
  {
    var s, price := Root(d, Quotient(d, r1, r0)), EncodeIn(d, m, r1, r0);
    DivBounds(s * m, d);
    ProductSums(s, t, m, price, b, d);
    QuotientBounds(d, r1, r0);
    RatioBelow(d, r1, r0, Quotient(d, r1, r0), s + t);
    RootAbove(d, m, r1, r0, s + t, price + b);
  }

  /** Moving the root down by t moves the price down by at most b. */
  lemma PriceBelow(d: int, m: nat, r1: nat, r0: nat, t: nat, b: nat)
    requires d > 0 && r0 > 0 && t * m <= b * d
    requires EncodeIn(d, m, r1, r0) >= b
    requires var q := Quotient(d, r1, r0); var s := Root(d, q); s >= t && 2 * ((s - t) * (s - t)) <= 2 * (q * d) - d
    ensures AtMostPrice(EncodeIn(d, m, r1, r0) - b, m, r1, r0)
  {
    var s, price := Root(d, Quotient(d, r1, r0)), EncodeIn(d, m, r1, r0);
    DivBounds(s * m, d);
    ProductDifferences(s, t, m, price, b, d);
    QuotientBounds(d, r1, r0);
    RatioAbove(d, r1, r0, Quotient(d, r1, r0), s - t);
    RootBelow(d, m, r1, r0, s - t, price - b);
  }

  lemma ProductSums(s: int, t: int, m: int, p: int, b: int, d: int)
    ensures (s + t) * m == s * m + t * m && (p + b) * d == p * d + (b - 1) * d + d
  {
  }

  lemma ProductDifferences(s: int, t: int, m: int, p: int, b: int, d: int)
    ensures (s - t) * m == s * m - t * m && (p - b) * d == p * d - b * d
  {
  }

  /** The price is off by at most m / e + 2, where e is the root of the unit d. */
  lemma EncodeInErrorAbove(e: int, d: int, m: nat, r1: nat, r0: nat)
    requires e >= 2 && d == e * e && d > 0 && r0 > 0 && m / e >= 0
    ensures AtLeastPrice(EncodeIn(d, m, r1, r0) + (m / e + 2), m, r1, r0)
  {
    var q, b: nat := Quotient(d, r1, r0), m / e + 2;
    assert e * m <= (b - 1) * d by {
      RootTimesPrice(e, d, m);
    }
    RootOver(e, d, q * d, Root(d, q));
    PriceAbove(d, m, r1, r0, e, b);
  }

  lemma EncodeInErrorBelow(e: int, d: int, m: nat, r1: nat, r0: nat)
    requires e >= 2 && d == e * e && d > 0 && r0 > 0 && m / e >= 0
    requires EncodeIn(d, m, r1, r0) >= m / e + 2
    ensures AtMostPrice(EncodeIn(d, m, r1, r0) - (m / e + 2), m, r1, r0)
  {
    var q := Quotient(d, r1, r0);
    RootTimesPrice(e, d, m);
    RootLarge(e, d, m, Root(d, q));
    RootUnder(e, d, q * d, Root(d, q));
    PriceBelow(d, m, r1, r0, e, m / e + 2);
  }

  lemma RootTimesPrice(e: int, d: int, m: nat)
    requires e >= 2 && d == e * e && d > 0
    ensures e * m <= (m / e + 1) * d <= (m / e + 2) * d
  {
    DivBounds(m, e);
    MulMono(m, (m / e + 1) * e, e);
    assert (m / e + 1) * e * e == (m / e + 1) * d;
  }

  /** A price beyond the error leaves room below its root. */
  lemma RootLarge(e: int, d: int, m: nat, s: nat)
    requires e >= 2 && d == e * e && d > 0 && Scaled(d, m, s) >= m / e + 2
    ensures s >= e
  {
    RootTimesPrice(e, d, m);
    DivBounds(s * m, d);
    MulMono(m / e + 2, Scaled(d, m, s), d);
    assert (m / e + 2) * d == (m / e + 1) * d + d;
    if s < e {
      MulMono(s, e, m);
    }
  }

  lemma RootOver(e: int, d: int, n: nat, s: nat)
    requires e >= 2 && d == e * e && Nearest(s, n)
    ensures 2 * n + d <= 2 * ((s + e) * (s + e))
  {
    MulMono(1, e, s);
    Binomial(s, e);
  }

  lemma RootUnder(e: int, d: int, n: nat, s: nat)
    requires e >= 2 && d == e * e && Nearest(s, n) && s >= e
    ensures 2 * ((s - e) * (s - e)) <= 2 * n - d
  {
    Binomial(s, -e);
    assert s * -e == -(s * e) && -e * -e == d;
    MulMono(e, s, 2 * e - 1);
    MulMono(2, e, e);
    assert (2 * e - 1) * s == 2 * (s * e) - s;
    assert (2 * e - 1) * e == 2 * d - e;
  }

  /** Prices of at least one are off by less than two units. */
  lemma EncodeInErrorAboveOne(d: int, m: nat, r1: nat, r0: nat)
    requires 1 <= m <= d && r0 > 0 && r1 >= r0
    ensures AtLeastPrice(EncodeIn(d, m, r1, r0) + 2, m, r1, r0)
    ensures EncodeIn(d, m, r1, r0) >= 1 && AtMostPrice(EncodeIn(d, m, r1, r0) - 1, m, r1, r0)
  {
    var q := Quotient(d, r1, r0);
    var s := Root(d, q);
    RootOfRatio(d, r1, r0);
    Binomial(s, 1);
    Binomial(s, -1);
    PriceAbove(d, m, r1, r0, 1, 2);
    MulMono(d, s, m);
    DivAtLeast(s * m, d, m);
    PriceBelow(d, m, r1, r0, 1, 1);
  }

  lemma RootOfRatio(d: int, r1: nat, r0: nat)
    requires d > 0 && r0 > 0 && r1 >= r0
    ensures Root(d, Quotient(d, r1, r0)) >= d
  {
    MulMono(r0, r1, d);
    assert d * (2 * r0) == 2 * (r0 * d);
    DivAtLeast(2 * (r1 * d) + r0, 2 * r0, d);
    var q := Quotient(d, r1, r0);
    MulMono(d, q, d);
    assert Nearest(d, d * d);
    NearestMonotone(d, d * d, Root(d, q), q * d);
  }

  /** How far any price can be from sqrt(r1 / r0) * 2^96. */
  lemma EncodeError(r1: nat, r0: nat)
    requires r0 > 0
    ensures Encode(r1, r0).Success?
    ensures AtLeastPrice(Encode(r1, r0).value + ERROR, Q96, r1, r0)
    ensures Encode(r1, r0).value >= ERROR ==> AtMostPrice(Encode(r1, r0).value - ERROR, Q96, r1, r0)
  {
    EncodeInErrorAbove(HALF_PLACES, PLACES, Q96, r1, r0);
    if Encode(r1, r0).value >= ERROR {
      EncodeInErrorBelow(HALF_PLACES, PLACES, Q96, r1, r0);
    }
  }

  /** Prices of at least one are less than two units above, and one below, what is encoded. */
  lemma EncodeErrorAboveOne(r1: nat, r0: nat)
    requires 0 < r0 <= r1
    ensures Encode(r1, r0).Success? && Encode(r1, r0).value >= 1
    ensures AtLeastPrice(Encode(r1, r0).value + 2, Q96, r1, r0)
    ensures AtMostPrice(Encode(r1, r0).value - 1, Q96, r1, r0)
  {
    EncodeInErrorAboveOne(PLACES, Q96, r1, r0);
  }
}
