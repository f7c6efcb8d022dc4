/** The four-place Money boundary: half-even rounding of an exact ratio. */
module MoneyRounding {

  const MONEY_SCALE := 10000

  /** Half-even rounding to an integer. Amounts are counted in units of 0.0001, so this is the
      rounding at the Money boundary. */
  function HalfEven(x: real): int {
    var low := x.Floor;
    var part := x - low as real;
    if part < 0.5 then low
    else if part > 0.5 then low + 1
    else if low % 2 == 0 then low else low + 1
  }

  ghost predicate IsHalfEven(q: int, x: real) {
    && -0.5 <= x - q as real <= 0.5
    && (x - q as real == 0.5 || x - q as real == -0.5 ==> q % 2 == 0)
  }

  /** Half-even rounding is the one nearest integer, the even one at a tie. */
  lemma HalfEvenIsUnique(x: real, q: int)
    ensures IsHalfEven(q, x) <==> q == HalfEven(x)
  {
    var r := HalfEven(x);
    assert IsHalfEven(r, x);
    assert IsHalfEven(q, x) ==> -1.0 <= q as real - r as real <= 1.0;
  }

  lemma HalfEvenIsOdd(x: real)
    ensures HalfEven(-x) == -HalfEven(x)
  {
    HalfEvenIsUnique(x, HalfEven(x));
    HalfEvenIsUnique(-x, -HalfEven(x));
  }

  lemma HalfEvenIsMonotone(x: real, y: real)
    requires x <= y
    ensures HalfEven(x) <= HalfEven(y)
  {
    assert x.Floor <= y.Floor;
  }

  lemma HalfEvenOfUnits(q: int)
    ensures HalfEven(q as real) == q
  {
  }

  datatype Ratio = Nil | Ratio(num: int, den: int)

  /** Go's QuoRem: the quotient truncates toward zero. */
  function TruncatedQuotient(n: int, d: int): int
    requires d > 0
  {
    if n >= 0 then n / d else -((-n) / d)
  }

  /** Rounds an exact ratio to Money units; the result is the half-even nearest unit. */
  method DecimalAtMoneyBoundary(value: Ratio) returns (units: int)
    requires value.Ratio? ==> value.den > 0
    ensures value.Nil? ==> units == 0
    ensures value.Ratio? ==> IsHalfEven(units, value.num as real * MONEY_SCALE as real / value.den as real)
  {
    if value.Nil? || value.num == 0 {
      return 0;
    }
    var scaled := value.num * MONEY_SCALE;
    var quotient := TruncatedQuotient(scaled, value.den);
    var remainder := scaled - quotient * value.den;
    TruncationIsNear(scaled, value.den);
    ghost var truncated := quotient;
    var twice := 2 * (if remainder < 0 then -remainder else remainder);
    if twice > value.den || (twice == value.den && quotient % 2 == 1) {
      if value.num < 0 {
        quotient := quotient - 1;
      } else {
        quotient := quotient + 1;
      }
    }
    units := quotient;
    RoundsTruncation(scaled, value.den, truncated, remainder, units);
  }

  lemma TruncationIsNear(n: int, d: int)
    requires d > 0
    ensures var r := n - TruncatedQuotient(n, d) * d;
            -d < r < d && (n >= 0 ==> r >= 0) && (n <= 0 ==> r <= 0)
  {
    if n >= 0 {
      assert n == (n / d) * d + n % d;
    } else {
      assert -n == ((-n) / d) * d + (-n) % d;
      assert (-((-n) / d)) * d == -(((-n) / d) * d);
    }
  }

  /** Moving a truncated quotient away from zero past one half gives the half-even result. */
  lemma RoundsTruncation(n: int, d: int, q: int, r: int, units: int)
    requires d > 0 && n == q * d + r && -d < r < d
    requires (n > 0 ==> r >= 0) && (n < 0 ==> r <= 0) && n != 0
    requires var twice := 2 * (if r < 0 then -r else r);
             units == if twice > d || (twice == d && q % 2 == 1) then (if n < 0 then q - 1 else q + 1) else q
    ensures IsHalfEven(units, n as real / d as real)
  {
    var t := n - units * d;
    assert t == r || t == r - d || t == r + d;
    assert -d <= 2 * t <= d && (2 * t == d || 2 * t == -d ==> units % 2 == 0);
    var y := n as real / d as real - units as real;
    assert y * d as real == t as real by {
      assert (n as real / d as real) * d as real == n as real;
      assert (units * d) as real == units as real * d as real;
    }
    HalfSide(y, d as real, t as real);
  }

  lemma HalfSide(y: real, e: real, t: real)
    requires e > 0.0 && y * e == t && -e <= 2.0 * t <= e
    ensures -0.5 <= y <= 0.5
    ensures y == 0.5 ==> 2.0 * t == e
    ensures y == -0.5 ==> 2.0 * t == -e
  {
    assert y > 0.5 ==> (y - 0.5) * e > 0.0;
    assert y < -0.5 ==> (-0.5 - y) * e > 0.0;
  }
}
