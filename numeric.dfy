/** Python's numeric built-ins over unbounded integers and exact decimals. */
module Numeric {

  /** Instants and durations are whole microseconds. */
  const Second: int := 1_000_000
  const Day: int := 86_400 * Second

  // Python's `max` and `min`, once on ints and once on floats: Dafny has no
  // type parameter ordered by `<=`, so the pair is written out per type.

  function MaxInt(a: int, b: int): (r: int)
    ensures r >= a && r >= b && (r == a || r == b)
  {
    if a >= b then a else b
  }

  function MinInt(a: int, b: int): (r: int)
    ensures r <= a && r <= b && (r == a || r == b)
  {
    if a <= b then a else b
  }

  function MaxReal(a: real, b: real): (r: real)
    ensures r >= a && r >= b && (r == a || r == b)
  {
    if a >= b then a else b
  }

  function MinReal(a: real, b: real): (r: real)
    ensures r <= a && r <= b && (r == a || r == b)
  {
    if a <= b then a else b
  }

  /** `abs(x)` */
  function AbsReal(x: real): (r: real)
    ensures r >= 0.0 && (r == x || r == -x)
  {
    if x < 0.0 then -x else x
  }

  /** `max(lo, min(hi, x))`: the clamp the server writes out at each call site. */
  function Clamp(x: real, lo: real, hi: real): (r: real)
    requires lo <= hi
    ensures lo <= r <= hi
    ensures lo <= x <= hi ==> r == x
  {
    MaxReal(lo, MinReal(hi, x))
  }

  lemma PositiveProduct(x: real, y: real)
    requires x > 0.0 && y > 0.0
    ensures x * y > 0.0
  {
  }

  /** A share of a positive whole lies in (0, 1], and is 1 only for the whole. */
  lemma RatioBounds(part: real, whole: real)
    requires 0.0 < part <= whole
    ensures 0.0 < part / whole <= 1.0
    ensures part / whole == 1.0 <==> part == whole
  {
    var q := part / whole;
    assert q * whole == part;
    if q > 1.0 {
      PositiveProduct(q - 1.0, whole);
      assert false;
    }
    if q <= 0.0 {
      if q < 0.0 {
        PositiveProduct(-q, whole);
      }
      assert false;
    }
  }

  /** Dividing a total by a count between 1 and the total gives a value between 1 and the total. */
  lemma QuotientBounds(n: real, m: real)
    requires 1.0 <= m <= n
    ensures 1.0 <= n / m <= n
  {
    var q := n / m;
    assert q * m == n;
    if q < 1.0 {
      PositiveProduct(1.0 - q, m);
      assert false;
    }
    if q > n {
      PositiveProduct(q - n, m);
      if m > 1.0 {
        PositiveProduct(n, m - 1.0);
      }
      assert false;
    }
  }

  /** A part below a positive whole is a fraction in [0, 1). */
  lemma FractionBelowOne(part: real, whole: real)
    requires 0.0 <= part < whole
    ensures 0.0 <= part / whole < 1.0
  {
    var q := part / whole;
    assert q * whole == part;
    if q >= 1.0 {
      if q > 1.0 {
        PositiveProduct(q - 1.0, whole);
      }
      assert false;
    }
    if q < 0.0 {
      PositiveProduct(-q, whole);
      assert false;
    }
  }

  /** Dividing by a positive number keeps the order. */
  lemma QuotientMonotone(a: real, b: real, m: real)
    requires a <= b && m > 0.0
    ensures a / m <= b / m
  {
    var qa := a / m;
    var qb := b / m;
    assert qa * m == a && qb * m == b;
    if qa > qb {
      PositiveProduct(qa - qb, m);
      assert false;
    }
  }

  /** `int(x)` on a float: rounds toward zero. */
  function Trunc(x: real): (r: int)
    ensures x >= 0.0 ==> r as real <= x < r as real + 1.0
    ensures x < 0.0 ==> r as real - 1.0 < x <= r as real
    ensures x >= 0.0 ==> r >= 0
  {
    if x >= 0.0 then x.Floor else -((-x).Floor)
  }
}
