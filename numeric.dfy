/** Exact-arithmetic counterparts of the numeric conversions the generator relies on. */
module Numeric {

  /** Python's `int(x)` on a float: truncation toward zero. */
  function Trunc(x: real): (r: int)
    ensures x >= 0.0 ==> 0 <= r && r as real <= x < r as real + 1.0
    ensures x < 0.0 ==> r <= 0 && r as real - 1.0 < x <= r as real
  {
    if x >= 0.0 then x.Floor else -((-x).Floor)
  }

  function Abs(x: real): real {
    if x < 0.0 then -x else x
  }

  /** Truncation is monotone on the non-negative reals. */
  lemma TruncMonotone(x: real, y: real)
    requires 0.0 <= x <= y
    ensures Trunc(x) <= Trunc(y)
  {
  }

  /** The sum of two truncations never exceeds the truncation of the sum. */
  lemma TruncAddLe(x: real, y: real)
    requires 0.0 <= x && 0.0 <= y
    ensures Trunc(x) + Trunc(y) <= Trunc(x + y)
  {
  }

  lemma DivNonNegative(a: real, b: real)
    requires 0.0 <= a && 0.0 < b
    ensures 0.0 <= a / b
  {
  }

  /** Dividing by the magnitude bound gives a value of magnitude at most one. */
  lemma DivByBound(x: real, m: real)
    requires 0.0 < m && -m <= x <= m
    ensures -1.0 <= x / m <= 1.0
  {
  }

  lemma DivMulCancel(x: real, m: real)
    requires m != 0.0
    ensures (x / m) * m == x
  {
  }

  /** A value of the bound's magnitude divides to magnitude one. */
  lemma DivByOwnMagnitude(x: real, m: real)
    requires 0.0 < m && Abs(x) == m
    ensures Abs(x / m) == 1.0
  {
    assert m / m == 1.0;
    if x < 0.0 {
      assert x == -m;
      assert (-m) / m == -(m / m);
    }
  }

  /** Taking a step of at least `h` off a positive remainder `r` lowers the count of `h`-slots left. */
  lemma FloorStepDecreases(r: real, d: real, h: real)
    requires 0.0 < h <= d && d < r
    ensures 0.0 <= (r - d) / h
    ensures ((r - d) / h).Floor < (r / h).Floor
  {
    assert (r - d) / h == r / h - d / h;
    assert d / h >= 1.0;
  }

  /** Euclidean division is determined by any quotient/remainder pair with the remainder in range. */
  lemma DivUnique(x: int, b: int, q: int, r: int)
    requires 0 < b && 0 <= r < b && x == q * b + r
    ensures x / b == q && x % b == r
  {
    var q', r' := x / b, x % b;
    assert x == q' * b + r';
    if q' > q {
      assert q' * b - q * b == (q' - q) * b;
      MulAtLeast(q' - q, b);
    } else if q' < q {
      assert q * b - q' * b == (q - q') * b;
      MulAtLeast(q - q', b);
    }
  }

  lemma MulAtLeast(k: int, b: int)
    requires 1 <= k && 0 < b
    ensures k * b >= b
  {
  }
}
