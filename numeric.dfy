/** Python's numeric built-ins as the engine uses them, over exact reals. */
module Numeric {

  function Min(a: real, b: real): (r: real)
    ensures r <= a && r <= b
    ensures r == a || r == b
  {
    if a <= b then a else b
  }

  function Max(a: real, b: real): (r: real)
    ensures r >= a && r >= b
    ensures r == a || r == b
  {
    if a >= b then a else b
  }

  /** `max(0, min(1, x))`: the clamp every score and engagement goes through. */
  function Clamp(x: real): (r: real)
    ensures 0.0 <= r <= 1.0
    ensures 0.0 <= x <= 1.0 ==> r == x
    ensures x < 0.0 ==> r == 0.0
    ensures x > 1.0 ==> r == 1.0
  {
    Max(0.0, Min(1.0, x))
  }

  lemma ClampMonotone(x: real, y: real)
    requires x <= y
    ensures Clamp(x) <= Clamp(y)
  {
  }

  lemma MulMonotone(a: real, b: real, c: real)
    requires a >= 0.0 && b <= c
    ensures a * b <= a * c
  {
  }

  lemma MulMonotoneRight(a: real, b: real, c: real)
    requires a >= 0.0 && b <= c
    ensures b * a <= c * a
  {
    MulMonotone(a, b, c);
  }

  lemma MulNonnegative(a: real, b: real)
    requires a >= 0.0 && b >= 0.0
    ensures a * b >= 0.0
  {
    MulMonotone(a, 0.0, b);
  }

  lemma ScaleDown(a: real, b: real)
    requires a >= 0.0 && b <= 1.0
    ensures a * b <= a
  {
    MulMonotone(a, b, 1.0);
  }

  /** A total of at least `c` per item averages at least `c`. */
  lemma MeanAtLeast(total: real, n: real, c: real)
    requires n > 0.0 && total >= c * n
    ensures total / n >= c
  {
    var q := total / n;
    assert q * n == total;
    if q < c {
      assert (c - q) * n > 0.0;
      assert c * n - q * n > 0.0;
    }
  }

  /** A total of at most `c` per item averages at most `c`. */
  lemma MeanAtMost(total: real, n: real, c: real)
    requires n > 0.0 && total <= c * n
    ensures total / n <= c
  {
    var q := total / n;
    assert q * n == total;
    if q > c {
      assert (q - c) * n > 0.0;
      assert q * n - c * n > 0.0;
    }
  }

  /** Python's `int(x)` on a float: truncation toward zero. */
  function PyInt(x: real): (n: int)
    ensures x >= 0.0 ==> n >= 0 && n as real <= x < n as real + 1.0
    ensures x < 0.0 ==> n <= 0 && n as real - 1.0 < x <= n as real
  {
    if x >= 0.0 then x.Floor else -((-x).Floor)
  }

  /** `for _ in range(int(x))` runs at most `3k` times when `0 <= x <= 3k`. */
  lemma TruncatedAtMostTriple(x: real, k: nat)
    requires 0.0 <= x <= 3.0 * (k as real)
    ensures RangeLength(PyInt(x)) <= 3 * k
  {
  }

  /** `for _ in range(int(x))` runs `floor(x)` times, and never for `x <= 0`. */
  lemma TruncatedCount(x: real)
    ensures x >= 0.0 ==> RangeLength(PyInt(x)) as real <= x < RangeLength(PyInt(x)) as real + 1.0
    ensures x <= 0.0 ==> RangeLength(PyInt(x)) == 0
  {
  }

  /** `for _ in range(int(x))` never runs more often for a smaller `x`. */
  lemma TruncatedCountMonotone(x: real, y: real)
    requires x <= y
    ensures RangeLength(PyInt(x)) <= RangeLength(PyInt(y))
  {
  }

  /** The number of iterations of `for _ in range(n)`. */
  function RangeLength(n: int): (k: nat)
    ensures n >= 0 ==> k == n
    ensures n < 0 ==> k == 0
  {
    if n < 0 then 0 else n
  }
}
