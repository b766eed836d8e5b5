/** Ray, wad and percent arithmetic with half-up rounding on unbounded integers. */
module FixedPoint {
  import opened Wrappers
  import opened Arithmetic

  const WAD: int := 1_000_000_000_000_000_000
  const RAY: int := 1_000_000_000_000_000_000_000_000_000
  const WAD_RAY_RATIO: int := 1_000_000_000
  const BASE_PERCENT: int := 10_000
  const PERCENT_WEI: int := 100_000_000_000_000 // a hundredth of a percent of 10^18

  /** Integer division of the big-number library: towards zero. */
  function TruncDiv(a: int, b: int): int
    requires b != 0
  {
    if a >= 0 then (if b > 0 then a / b else -(a / -b))
    else if b > 0 then -(-a / b) else -a / -b
  }

  /** wadMul, rayMul and percentMul: they differ in the unit. */
  function MulIn(unit: int, a: int, b: int): int
    requires unit > 0
  {
    if a == 0 || b == 0 then 0 else TruncDiv(unit / 2 + a * b, unit)
  }

  /** wadDiv and rayDiv; dividing by zero is an error. */
  function DivIn(unit: int, a: int, b: int): Result<int> {
    if b == 0 then Failure else Success(TruncDiv(a * unit + TruncDiv(b, 2), b))
  }

  /** wadDivUp, rayDivUp and percentDivUp. */
  function DivUpIn(unit: int, a: int, b: int): Result<int> {
    if b == 0 then Failure else Success(TruncDiv(a * unit + (b - 1), b))
  }

  function WadMul(a: int, b: int): int { MulIn(WAD, a, b) }
  function RayMul(a: int, b: int): int { MulIn(RAY, a, b) }
  function PercentMul(x: int, pct: int): int { MulIn(BASE_PERCENT, x, pct) }
  function WadDiv(a: int, b: int): Result<int> { DivIn(WAD, a, b) }
  function RayDiv(a: int, b: int): Result<int> { DivIn(RAY, a, b) }

  /** Percent division answers 0 instead of failing when the percentage is 0. */
  function PercentDiv(x: int, pct: int): Result<int> {
    if x == 0 || pct == 0 then Success(0) else DivIn(BASE_PERCENT, x, pct)
  }

  function RayToWad(a: int): int { TruncDiv(a, WAD_RAY_RATIO) }
  function WadToRay(a: int): int { a * WAD_RAY_RATIO }

  function WeiToPercent(wei: int): int {
    TruncDiv(TruncDiv(wei * BASE_PERCENT, PERCENT_WEI) + BASE_PERCENT / 2, BASE_PERCENT)
  }

  // ---------- rounding ----------

  /** Half-up: the product in units is within half a unit of the exact product. */
  lemma MulHalfUp(unit: int, a: int, b: int)
    requires unit > 0 && unit % 2 == 0 && a >= 0 && b >= 0
    ensures var r := MulIn(unit, a, b);
            r >= 0 && a * b - unit / 2 < r * unit <= a * b + unit / 2
  {
    MulMono(0, a, b);
    if a == 0 || b == 0 {
      assert a * b == 0;
    } else {
      DivBounds(unit / 2 + a * b, unit);
    }
  }

  lemma DivHalfUp(unit: int, a: int, b: int)
    requires unit > 0 && a >= 0 && b > 0
    ensures DivIn(unit, a, b).Success?
    ensures var x := DivIn(unit, a, b).value;
            x >= 0 && x * b <= a * unit + b / 2 < x * b + b
  {
    MulMono(0, a, unit);
    DivBounds(a * unit + b / 2, b);
  }

  // ---------- rounding with signs ----------

  /** The quotient is rounded down: its product fits, and the next one does not. */
  predicate RoundsDown(n: int, d: int, q: int) {
    q * d <= n < q * d + d
  }

  lemma RoundsDownIsQuotient(n: int, d: int, q: int)
    requires d > 0
    ensures RoundsDown(n, d, q) <==> q == n / d
  {
    DivBounds(n, d);
    if RoundsDown(n, d, q) {
      DivModUnique(n, d, q, n - q * d);
    }
  }

  lemma NegatedQuotient(n: int, d: int)
    requires d > 0
    ensures -(-n / d) == if n % d == 0 then n / d else n / d + 1
  {
    if n % d == 0 {
      DivModUnique(-n, d, -(n / d), 0);
    } else {
      DivModUnique(-n, d, -(n / d) - 1, d - n % d);
    }
  }

  /** Division towards zero rounds down exactly on numbers that are not negative, or exact. */
  lemma TruncRoundsDownExactly(n: int, d: int)
    requires d > 0
    ensures RoundsDown(n, d, TruncDiv(n, d)) <==> n >= 0 || n % d == 0
    ensures n < 0 && n % d != 0 ==> TruncDiv(n, d) == n / d + 1
  {
    RoundsDownIsQuotient(n, d, TruncDiv(n, d));
    NegatedQuotient(n, d);
  }

  /** For all numbers: the product is rounded half up exactly when the sum that is divided
      is not negative, or a multiple of the unit. */
  lemma MulHalfUpExactly(unit: int, a: int, b: int)
    requires unit > 0 && unit % 2 == 0
    ensures var n := unit / 2 + a * b;
            RoundsDown(n, unit, MulIn(unit, a, b)) <==> n >= 0 || n % unit == 0
  {
    TruncRoundsDownExactly(unit / 2 + a * b, unit);
    if a == 0 || b == 0 {
      assert a * b == 0;
    }
  }

  lemma TruncNegated(n: int, d: int)
    requires d != 0
    ensures TruncDiv(-n, -d) == TruncDiv(n, d)
  {
  }

  lemma DivNegated(unit: int, a: int, b: int)
    requires unit > 0 && b != 0
    ensures DivIn(unit, -a, -b) == DivIn(unit, a, b)
  {
    assert -a * unit == -(a * unit) && TruncDiv(-b, 2) == -TruncDiv(b, 2);
    TruncNegated(a * unit + TruncDiv(b, 2), b);
  }

  /** The same for quotients; negating both numbers changes nothing. */
  lemma DivHalfUpExactly(unit: int, a: int, b: int)
    requires unit > 0 && b != 0
    ensures DivIn(unit, a, b).Success? && DivIn(unit, -a, -b) == DivIn(unit, a, b)
    ensures var n := a * unit + b / 2;
            b > 0 ==> (RoundsDown(n, b, DivIn(unit, a, b).value) <==> n >= 0 || n % b == 0)
  {
    DivNegated(unit, a, b);
    if b > 0 {
      TruncRoundsDownExactly(a * unit + b / 2, b);
    }
  }

  /** x is the least integer not below n / d. */
  ghost predicate IsCeiling(n: int, d: int, x: int) {
    forall y: int :: n <= y * d <==> x <= y
  }

  lemma CeilingIsQuotient(n: int, d: int, x: int)
    requires d > 0
    ensures IsCeiling(n, d, x) <==> x == (n + d - 1) / d
  {
    var c := (n + d - 1) / d;
    forall y: int ensures n <= y * d <==> c <= y {
      assert (y + 1) * d == y * d + d;
      if n <= y * d {
        DivBelow(n + d - 1, d, y + 1);
      } else {
        DivAtLeast(n + d - 1, d, y + 1);
      }
    }
    if IsCeiling(n, d, x) {
      assert n <= x * d <==> x <= x;
      assert n <= c * d <==> x <= c;
    }
  }

  /** For all numbers and positive divisors: the rounded-up quotient is the ceiling exactly
      when the sum that is divided is not negative, or a multiple of the divisor. */
  lemma DivUpExactly(unit: int, a: int, b: int)
    requires unit > 0 && b > 0
    ensures DivUpIn(unit, a, b).Success?
    ensures var n := a * unit + (b - 1);
            IsCeiling(a * unit, b, DivUpIn(unit, a, b).value) <==> n >= 0 || n % b == 0
  {
    var n := a * unit + (b - 1);
    CeilingIsQuotient(a * unit, b, TruncDiv(n, b));
    RoundsDownIsQuotient(n, b, TruncDiv(n, b));
    TruncRoundsDownExactly(n, b);
  }

  /** Negative divisors go wrong on most numbers, for one is subtracted where it should be added. */
  lemma DivUpNegativeExactly(unit: int, a: int, b: int)
    requires unit > 0 && b < 0
    ensures DivUpIn(unit, a, b).Success?
    ensures var m, d := -(a * unit), -b;
            IsCeiling(m, d, DivUpIn(unit, a, b).value) <==> m + d + 1 >= 0 && (m + d - 1) % d + 2 < d
  {
    var m, d := -(a * unit), -b;
    var q := m + d - 1;
    assert a * unit + (b - 1) == -(q + 2);
    assert DivUpIn(unit, a, b).value == TruncDiv(q + 2, d);
    CeilingIsQuotient(m, d, TruncDiv(q + 2, d));
    TruncRoundsDownExactly(q + 2, d);
    RoundsDownIsQuotient(q + 2, d, TruncDiv(q + 2, d));
    TwoMore(q, d);
  }

  lemma TwoMore(q: int, d: int)
    requires d > 0
    ensures (q + 2) / d >= q / d
    ensures (q + 2) / d == q / d <==> q % d + 2 < d
    ensures (q + 2) % d == 0 ==> (q + 2) / d > q / d
  {
    DivMono(q, q + 2, d);
    DivBounds(q, d);
    if q % d + 2 < d {
      DivModUnique(q + 2, d, q / d, q % d + 2);
    } else {
      DivAtLeast(q + 2, d, q / d + 1);
    }
  }

  // ---------- round trips ----------

  /** Dividing and then multiplying gives the number back while b is at most the unit. */
  lemma DivThenMul(unit: int, a: int, b: int)
    requires unit > 0 && unit % 2 == 0 && a >= 0 && 0 < b <= unit
    ensures MulIn(unit, DivIn(unit, a, b).value, b) == a
  {
    DivHalfUp(unit, a, b);
    var x := DivIn(unit, a, b).value;
    if x == 0 {
      assert a * unit < unit;
      if a > 0 { MulMono(1, a, unit); }
    } else {
      if b == unit {
        DivModUnique(a * unit + b / 2, b, a, b / 2);
      }
      DivModUnique(unit / 2 + x * b, unit, a, unit / 2 + x * b - a * unit);
    }
  }

  /** Multiplying and then dividing gives the number back once b is at least the unit. */
  lemma MulThenDiv(unit: int, a: int, b: int)
    requires unit > 0 && unit % 2 == 0 && a >= 0 && b >= unit
    ensures DivIn(unit, MulIn(unit, a, b), b) == Success(a)
  {
    MulHalfUp(unit, a, b);
    var y := MulIn(unit, a, b);
    if b == unit {
      if a > 0 {
        DivModUnique(unit / 2 + a * b, unit, a, unit / 2);
      }
      DivModUnique(y * unit + b / 2, b, a, b / 2);
    } else {
      DivModUnique(y * unit + b / 2, b, a, y * unit + b / 2 - a * b);
    }
  }

  /** On non-negative factors the shortcut for zero changes nothing. */
  lemma MulIsQuotient(unit: int, a: int, b: int)
    requires unit > 0 && a >= 0 && b >= 0
    ensures a * b >= 0 && MulIn(unit, a, b) == (unit / 2 + a * b) / unit
  {
    MulMono(0, a, b);
    if a == 0 || b == 0 {
      assert a * b == 0;
      DivModUnique(unit / 2, unit, 0, unit / 2);
    }
  }

  /** Above the unit some number is no product at all, so no quotient leads back to it. */
  lemma SkippedProduct(unit: int, b: int, x: int)
    requires unit > 0 && unit % 2 == 0 && b > unit
    requires x == (unit / 2 + (b - unit) - 1) / (b - unit)
    ensures x >= 1 && forall y | y >= 0 :: MulIn(unit, y, b) != x
  {
    var gap := b - unit;
    DivBounds(unit / 2 + gap - 1, gap);
    DivAtLeast(unit / 2 + gap - 1, gap, 1);
    forall y | y >= 0 ensures MulIn(unit, y, b) != x {
      MulIsQuotient(unit, y, b);
      if y < x {
        ProductBelow(unit, gap, x, y);
      } else {
        ProductAbove(unit, gap, x, y);
      }
    }
  }

  lemma ProductBelow(unit: int, gap: int, x: int, y: int)
    requires unit > 0 && unit % 2 == 0 && gap > 0 && 0 <= y < x && (x - 1) * gap < unit / 2
    ensures (unit / 2 + y * (unit + gap)) / unit < x
  {
    MulMono(y, x - 1, gap);
    MulMono(y + 1, x, unit);
    Distribute(y, unit, gap);
    DivBelow(unit / 2 + y * (unit + gap), unit, x);
  }

  lemma ProductAbove(unit: int, gap: int, x: int, y: int)
    requires unit > 0 && unit % 2 == 0 && gap > 0 && 0 <= x <= y && x * gap >= unit / 2
    ensures (unit / 2 + y * (unit + gap)) / unit > x
  {
    MulMono(x, y, gap);
    MulMono(x, y, unit);
    Distribute(y, unit, gap);
    Distribute(unit, x, 1);
    DivAtLeast(unit / 2 + y * (unit + gap), unit, x + 1);
  }

  lemma Distribute(x: int, y: int, z: int)
    ensures x * (y + z) == x * y + x * z && (y + z) * x == x * (y + z) && (x + 1) * y == x * y + y
  {
  }

  /** Below the unit two neighbours have the same product, so one of them does not come back. */
  lemma CollidingProducts(unit: int, b: int, x: int)
    requires unit > 0 && unit % 2 == 0 && 0 < b < unit
    requires x == (unit / 2) / (unit - b) + 1
    ensures x >= 1 && MulIn(unit, x, b) == MulIn(unit, x - 1, b)
  {
    var gap := unit - b;
    DivBounds(unit / 2, gap);
    DivAtLeast(unit / 2, gap, 0);
    MulIsQuotient(unit, x, b);
    MulIsQuotient(unit, x - 1, b);
    Distribute(x, b, gap);
    Distribute(x - 1, b, gap);
    Neighbours(unit, x, x * b, (x - 1) * b);
  }

  /** Two sums around the same multiple of the unit have the same quotient. */
  lemma Neighbours(unit: int, x: int, high: int, low: int)
    requires unit > 0 && low <= high
    requires unit / 2 + high < x * unit && (x - 1) * unit <= unit / 2 + low
    ensures (unit / 2 + high) / unit == (unit / 2 + low) / unit == x - 1
  {
    DivBelow(unit / 2 + high, unit, x);
    DivAtLeast(unit / 2 + low, unit, x - 1);
    DivMono(unit / 2 + low, unit / 2 + high, unit);
  }

  /** The exact range of the first round trip. */
  lemma DivThenMulExactly(unit: int, b: int)
    requires unit > 0 && unit % 2 == 0 && b > 0
    ensures (forall a: nat :: MulIn(unit, DivIn(unit, a, b).value, b) == a) <==> b <= unit
  {
    if b <= unit {
      forall a: nat ensures MulIn(unit, DivIn(unit, a, b).value, b) == a {
        DivThenMul(unit, a, b);
      }
    } else {
      var x := (unit / 2 + (b - unit) - 1) / (b - unit);
      SkippedProduct(unit, b, x);
      DivHalfUp(unit, x, b);
      var a: nat := x;
      assert MulIn(unit, DivIn(unit, a, b).value, b) != a;
    }
  }

  /** The exact range of the second round trip. */
  lemma MulThenDivExactly(unit: int, b: int)
    requires unit > 0 && unit % 2 == 0 && b > 0
    ensures (forall a: nat :: DivIn(unit, MulIn(unit, a, b), b) == Success(a)) <==> b >= unit
  {
    if b >= unit {
      forall a: nat ensures DivIn(unit, MulIn(unit, a, b), b) == Success(a) {
        MulThenDiv(unit, a, b);
      }
    } else {
      var x := (unit / 2) / (unit - b) + 1;
      CollidingProducts(unit, b, x);
      var high: nat, low: nat := x, x - 1;
      assert DivIn(unit, MulIn(unit, high, b), b) == DivIn(unit, MulIn(unit, low, b), b);
    }
  }

  /** Both round trips for rays. */
  lemma RayRoundTrips(a: nat, b: int)
    ensures 0 < b <= RAY ==> RayMul(RayDiv(a, b).value, b) == a
    ensures b >= RAY ==> RayDiv(RayMul(a, b), b) == Success(a)
  {
    if 0 < b <= RAY { DivThenMul(RAY, a, b); }
    if b >= RAY { MulThenDiv(RAY, a, b); }
  }

  /** Both round trips for wads. */
  lemma WadRoundTrips(a: nat, b: int)
    ensures 0 < b <= WAD ==> WadMul(WadDiv(a, b).value, b) == a
    ensures b >= WAD ==> WadDiv(WadMul(a, b), b) == Success(a)
  {
    if 0 < b <= WAD { DivThenMul(WAD, a, b); }
    if b >= WAD { MulThenDiv(WAD, a, b); }
  }

  /** Both round trips for percentages, whose division has a shortcut for zero. */
  lemma PercentRoundTrips(a: nat, b: int)
    ensures 0 < b <= BASE_PERCENT ==> PercentMul(PercentDiv(a, b).value, b) == a
    ensures b >= BASE_PERCENT ==> PercentDiv(PercentMul(a, b), b) == Success(a)
  {
    if 0 < b <= BASE_PERCENT { DivThenMul(BASE_PERCENT, a, b); }
    if b >= BASE_PERCENT { MulThenDiv(BASE_PERCENT, a, b); }
  }

  // ---------- error bounds ----------

  /** Multiplication is associative up to an error that grows with the outer factors:
      at most (a + c) / (2 * unit) + 1. */
  lemma MulAlmostAssociative(unit: int, a: int, b: int, c: int)
    requires unit > 0 && unit % 2 == 0 && a >= 0 && b >= 0 && c >= 0
    ensures var left := MulIn(unit, MulIn(unit, a, b), c);
            var right := MulIn(unit, a, MulIn(unit, b, c));
            -(a + c) - 2 * unit <= 2 * unit * (left - right) <= a + c + 2 * unit
  {
    MulHalfUp(unit, a, b);
    MulHalfUp(unit, b, c);
    TwiceRounded(unit, a * b, MulIn(unit, a, b), c);
    TwiceRounded(unit, b * c, MulIn(unit, b, c), a);
    MulCommutes(unit, a, MulIn(unit, b, c));
    Rotate(a, b, c);
    HalfCancel(unit, MulIn(unit, MulIn(unit, a, b), c), MulIn(unit, a, MulIn(unit, b, c)), a * b * c, a, c);
  }

  lemma MulCommutes(unit: int, a: int, b: int)
    requires unit > 0
    ensures MulIn(unit, a, b) == MulIn(unit, b, a)
  {
    assert a * b == b * a;
  }

  lemma Rotate(a: int, b: int, c: int)
    ensures a * b * c == b * c * a
  {
  }

  /** Rounding a product n to p and then p * c: how far the result is from n * c. */
  lemma TwiceRounded(unit: int, n: int, p: int, c: int)
    requires unit > 0 && unit % 2 == 0 && c >= 0 && p >= 0
    requires n - unit / 2 < p * unit <= n + unit / 2
    ensures var r := MulIn(unit, p, c) * unit * unit;
            -((c + unit) * unit) <= 2 * (r - n * c) <= (c + unit) * unit
  {
    MulHalfUp(unit, p, c);
    var r := MulIn(unit, p, c);
    Propagated(unit, p * unit - n, c, r * unit - p * c);
    Expand(unit, n, p, c, r);
  }

  lemma Expand(unit: int, n: int, p: int, c: int, r: int)
    ensures (p * unit - n) * c + (r * unit - p * c) * unit == r * unit * unit - n * c
  {
    assert (p * unit - n) * c == p * unit * c - n * c;
    assert (r * unit - p * c) * unit == r * unit * unit - p * c * unit;
    assert p * unit * c == p * c * unit;
  }

  /** An error of at most half a unit in a factor, and another in the product. */
  lemma Propagated(unit: int, e: int, c: int, f: int)
    requires unit > 0 && unit % 2 == 0 && c >= 0
    requires -(unit / 2) <= e <= unit / 2 && -(unit / 2) <= f <= unit / 2
    ensures -((c + unit) * unit) <= 2 * (e * c + f * unit) <= (c + unit) * unit
  {
    Twice(unit, e, c);
    Twice(unit, f, unit);
    Distribute(unit, c, unit);
  }

  lemma Twice(unit: int, e: int, c: int)
    requires unit > 0 && unit % 2 == 0 && c >= 0 && -(unit / 2) <= e <= unit / 2
    ensures -(unit * c) <= 2 * (e * c) <= unit * c
  {
    MulMono(2 * e, unit, c);
    MulMono(-unit, 2 * e, c);
  }

  /** Two results that both come close to t come close to each other. */
  lemma HalfCancel(unit: int, left: int, right: int, t: int, a: int, c: int)
    requires unit > 0
    requires -((c + unit) * unit) <= 2 * (left * unit * unit - t) <= (c + unit) * unit
    requires -((a + unit) * unit) <= 2 * (right * unit * unit - t) <= (a + unit) * unit
    ensures -(a + c) - 2 * unit <= 2 * unit * (left - right) <= a + c + 2 * unit
  {
    HalfCancelProducts(unit, left, right, a, c);
    CancelUnit(unit, 2 * unit * (left - right), a + c + 2 * unit);
    CancelUnit(unit, -(a + c + 2 * unit), 2 * unit * (left - right));
  }

  lemma HalfCancelProducts(unit: int, left: int, right: int, a: int, c: int)
    ensures 2 * unit * (left - right) * unit == 2 * (left * unit * unit) - 2 * (right * unit * unit)
    ensures (a + c + 2 * unit) * unit == (c + unit) * unit + (a + unit) * unit
    ensures -(a + c + 2 * unit) * unit == -((a + c + 2 * unit) * unit)
  {
  }

  lemma CancelUnit(unit: int, x: int, y: int)
    requires unit > 0 && x * unit <= y * unit
    ensures x <= y
  {
    if x > y {
      MulMono(y + 1, x, unit);
    }
  }

  function Sum(xs: seq<int>): int {
    if xs == [] then 0 else xs[0] + Sum(xs[1..])
  }

  /** The balances at an index: supply, or variable debt. */
  function Balances(scaled: seq<int>, index: int): (balances: seq<int>)
    ensures |balances| == |scaled|
  {
    if scaled == [] then [] else [RayMul(scaled[0], index)] + Balances(scaled[1..], index)
  }

  lemma {:induction false} BalancesSum(scaled: seq<int>, index: int)
    requires index >= 0 && forall i :: 0 <= i < |scaled| ==> scaled[i] >= 0
    ensures Sum(scaled) >= 0
    ensures var total := Sum(Balances(scaled, index));
            var exact := Sum(scaled) * index;
            2 * exact - |scaled| * RAY <= 2 * (total * RAY) <= 2 * exact + |scaled| * RAY
    decreases |scaled|
  {
    if scaled != [] {
      var rest := scaled[1..];
      BalancesSum(rest, index);
      MulHalfUp(RAY, scaled[0], index);
      assert Balances(scaled, index)[1..] == Balances(rest, index);
      assert Sum(scaled) * index == scaled[0] * index + Sum(rest) * index;
    }
  }

  /** Aggregate balance error: the balances of n users add up to the balance of their
      total up to (n + 1) / 2 units, whatever the index. */
  lemma AggregateError(scaled: seq<int>, index: int)
    requires index >= 0 && forall i :: 0 <= i < |scaled| ==> scaled[i] >= 0
    ensures var difference := Sum(Balances(scaled, index)) - RayMul(Sum(scaled), index);
            -(|scaled| + 1) <= 2 * difference <= |scaled| + 1
  {
    BalancesSum(scaled, index);
    MulHalfUp(RAY, Sum(scaled), index);
  }

  /** Variable debt, read only when there is any, plus stable debt. */
  function UserDebtBalance(scaledVariableDebt: int, variableIndex: int, stableDebt: int): int {
    (if scaledVariableDebt != 0 then RayMul(scaledVariableDebt, variableIndex) else scaledVariableDebt) + stableDebt
  }

  /** The shortcut changes nothing, and the rounding error is at most half a unit. */
  lemma DebtBalanceError(scaledVariableDebt: nat, variableIndex: nat, stableDebt: int)
    ensures UserDebtBalance(scaledVariableDebt, variableIndex, stableDebt) ==
            RayMul(scaledVariableDebt, variableIndex) + stableDebt
    ensures var error := (UserDebtBalance(scaledVariableDebt, variableIndex, stableDebt) - stableDebt) * RAY
                         - scaledVariableDebt * variableIndex;
            -(RAY / 2) < error <= RAY / 2
  {
    MulHalfUp(RAY, scaledVariableDebt, variableIndex);
  }

  // ---------- the units ----------

  /** One in each unit, by which negative numbers are multiplied one too high, and what division
      by zero comes to: an error, but 0 for percentages. */
  lemma UnitsExactly(x: int)
    ensures var product := if x >= 0 then x else x + 1;
            && WadMul(x, 1_000_000_000_000_000_000) == product
            && RayMul(x, 1_000_000_000_000_000_000_000_000_000) == product
            && PercentMul(x, 10_000) == product
    ensures WadToRay(x) == x * 1_000_000_000
    ensures WadToRay(WAD) == RAY && WeiToPercent(WAD) == BASE_PERCENT
    ensures PercentDiv(x, 0) == Success(0) && PercentDiv(0, x) == Success(0)
    ensures WadDiv(x, 0) == RayDiv(x, 0) == Failure
  {
    MulByUnit(WAD, x);
    MulByUnit(RAY, x);
    MulByUnit(BASE_PERCENT, x);
  }

  lemma MulByUnit(unit: int, x: int)
    requires unit > 2 && unit % 2 == 0
    ensures MulIn(unit, x, unit) == if x >= 0 then x else x + 1
  {
    if x >= 0 {
      MulMono(0, x, unit);
      DivModUnique(unit / 2 + x * unit, unit, x, unit / 2);
    } else {
      var n := unit / 2 + x * unit;
      MulMono(x, -1, unit);
      assert -n == -x * unit - unit / 2 == (-x - 1) * unit + unit / 2;
      DivModUnique(-n, unit, -x - 1, unit / 2);
    }
  }

  // ---------- conversions ----------

  /** Wads survive the way to rays and back; rays lose what is below a wad. */
  lemma RayWadConversions(a: nat)
    ensures RayToWad(WadToRay(a)) == a
    ensures WadToRay(RayToWad(a)) <= a < WadToRay(RayToWad(a)) + WAD_RAY_RATIO
    ensures WadToRay(RayToWad(a)) == a <==> a % WAD_RAY_RATIO == 0
  {
    DivModUnique(WadToRay(a), WAD_RAY_RATIO, a, 0);
  }

  /** Although it divides twice, the conversion rounds half up once. */
  lemma WeiToPercentIsHalfUp(wei: nat)
    ensures var p := WeiToPercent(wei);
            p * PERCENT_WEI <= wei + PERCENT_WEI / 2 < p * PERCENT_WEI + PERCENT_WEI
  {
    var tenth := wei * BASE_PERCENT / PERCENT_WEI;
    DivBounds(wei * BASE_PERCENT, PERCENT_WEI);
    DivBounds(tenth + BASE_PERCENT / 2, BASE_PERCENT);
    HalfUpTwice(wei, tenth, (tenth + BASE_PERCENT / 2) / BASE_PERCENT);
  }

  lemma HalfUpTwice(wei: int, tenth: int, p: int)
    requires tenth * PERCENT_WEI <= wei * BASE_PERCENT < tenth * PERCENT_WEI + PERCENT_WEI
    requires p * BASE_PERCENT <= tenth + BASE_PERCENT / 2 < p * BASE_PERCENT + BASE_PERCENT
    ensures p * PERCENT_WEI <= wei + PERCENT_WEI / 2 < p * PERCENT_WEI + PERCENT_WEI
  {
  }
}
