/** JavaScript number operations over idealised reals.
    Times, lengths and samples are Dafny `real`s: IEEE-754 rounding is not modelled. */
module JsNum {

  /** `null` (or `undefined`) versus a present value. */
  datatype Option<+T> = None | Some(value: T)

  function Max(a: int, b: int): int { if a < b then b else a }
  function Min(a: int, b: int): int { if a < b then a else b }
  function MaxR(a: real, b: real): real { if a < b then b else a }
  function MinR(a: real, b: real): real { if a < b then a else b }
  function Abs(x: real): real { if x < 0.0 then -x else x }

  /** `Math.floor`. */
  function Floor(x: real): (r: int)
    ensures r as real <= x < r as real + 1.0
  {
    x.Floor
  }

  /** `Math.ceil`. */
  function Ceil(x: real): (r: int)
    ensures r as real - 1.0 < x <= r as real
  {
    if x.Floor as real == x then x.Floor else x.Floor + 1
  }

  /** `Math.round`: halves go up, so it is `floor(x + 0.5)`. */
  function Round(x: real): (r: int)
    ensures x - 0.5 < r as real <= x + 0.5
  {
    Floor(x + 0.5)
  }

  /** ToIntegerOrInfinity, as used by `%` and the typed-array setters: truncation toward zero. */
  function Trunc(x: real): (r: int)
    ensures 0.0 <= x ==> 0 <= r && r as real <= x < r as real + 1.0
    ensures x < 0.0 ==> r <= 0 && r as real - 1.0 < x <= r as real
  {
    if x >= 0.0 then x.Floor else -((-x).Floor)
  }

  /** True when `x` is a whole number. */
  predicate IsWhole(x: real) {
    x.Floor as real == x
  }

  /** True when `t` lies on the grid `ref + k * period` for a whole `k`. */
  predicate OnGrid(t: real, ref: real, period: real)
    requires period > 0.0
  {
    IsWhole((t - ref) / period)
  }

  /** `ref + k * period` is on the grid of `ref` with that period. */
  lemma GridPoint(ref: real, period: real, k: int)
    requires period > 0.0
    ensures OnGrid(ref + k as real * period, ref, period)
  {
    assert (ref + k as real * period - ref) / period == k as real;
  }

  /** Multiplying by a positive factor keeps an order. */
  lemma MulLe(a: real, b: real, m: real)
    requires m > 0.0 && a <= b
    ensures a * m <= b * m
  {
  }

  lemma MulLt(a: real, b: real, m: real)
    requires m > 0.0 && a < b
    ensures a * m < b * m
  {
  }

  lemma AtLeastOnce(n: real, m: real)
    requires m > 0.0 && n >= 1.0
    ensures n * m >= m
  {
    MulLe(1.0, n, m);
  }

  lemma AtMostMinusOne(x: real, m: real)
    requires m > 0.0 && x <= -1.0
    ensures x * m <= -m
  {
    MulLe(x, -1.0, m);
  }

  lemma NonNegativeProduct(x: real, m: real)
    requires m > 0.0 && x >= 0.0
    ensures x * m >= 0.0
  {
  }

  /** A dividend strictly between `-m` and 0 has a quotient strictly between -1 and 0. */
  lemma QuotientInside(a: real, m: real)
    requires m > 0.0 && -m < a < 0.0
    ensures -1.0 < a / m < 0.0
  {
    var x := a / m;
    assert x * m == a;
    if x <= -1.0 {
      AtMostMinusOne(x, m);
    }
    if x >= 0.0 {
      NonNegativeProduct(x, m);
    }
  }

  /** One more group of `t`. */
  lemma MulSucc(p: int, t: int)
    ensures (p + 1) * t == p * t + t
  {
  }

  /** A non-negative number below the divisor is its own remainder. */
  lemma SmallMod(i: int, t: int)
    requires 0 <= i < t
    ensures i % t == i
  {
  }

  /** Quotient and remainder by `p` are both 0 only for 0. */
  lemma ZeroQuotientAndRemainder(i: int, p: int)
    requires 0 <= i && p >= 1
    ensures (i / p == 0 && i % p == 0) <==> i == 0
  {
    assert i == p * (i / p) + i % p;
  }

  /** A point on a grid is `ref + k * period` for the whole number `k = (t - ref) / period`. */
  lemma GridIndex(t: real, ref: real, period: real)
    requires period > 0.0 && OnGrid(t, ref, period)
    ensures t == ref + ((t - ref) / period).Floor as real * period
  {
    var x := (t - ref) / period;
    var k := x.Floor;
    assert x * period == t - ref;
    assert k as real == x;
  }

  /** A point on the grid is still on it one period later. */
  lemma GridNext(t: real, ref: real, period: real)
    requires period > 0.0 && OnGrid(t, ref, period)
    ensures OnGrid(t + period, ref, period)
  {
    GridIndex(t, ref, period);
    var k := ((t - ref) / period).Floor;
    var k1 := k + 1;
    GridPoint(ref, period, k1);
    calc { ref + k1 as real * period; == ref + k as real * period + period; == t + period; }
  }

  /** Moving both the point and the reference keeps the point on the grid. */
  lemma GridShift(a: real, ref: real, period: real)
    requires period > 0.0 && OnGrid(a, 0.0, period)
    ensures OnGrid(ref + a, ref, period)
  {
    GridIndex(a, 0.0, period);
    var k := ((a - 0.0) / period).Floor;
    GridPoint(ref, period, k);
    calc { ref + k as real * period; == ref + (0.0 + k as real * period); == ref + a; }
  }

  /** Multiplying `q <= x < q + 1` by a positive period. */
  lemma ScaleBounds(x: real, q: real, p: real)
    requires p > 0.0
    requires q <= x < q + 1.0
    ensures q * p <= x * p < q * p + p
  {
  }

  /** Multiplying `q - 1 < x <= q` by a positive period. */
  lemma ScaleBoundsBelow(x: real, q: real, p: real)
    requires p > 0.0
    requires q - 1.0 < x <= q
    ensures q * p - p < x * p <= q * p
  {
  }

  /** The truncated quotient times the divisor never overshoots `a` in magnitude. */
  lemma TruncScale(a: real, b: real)
    requires b > 0.0
    ensures 0.0 <= a ==> Trunc(a / b) as real * b <= a < Trunc(a / b) as real * b + b
    ensures a < 0.0 ==> Trunc(a / b) as real * b - b < a <= Trunc(a / b) as real * b
  {
    var x := a / b;
    var q := Trunc(x) as real;
    if a >= 0.0 {
      assert x >= 0.0;
      ScaleBounds(x, q, b);
      calc { q * b; <= x * b; == a; }
      calc { a; == x * b; < q * b + b; }
    } else {
      assert x < 0.0;
      ScaleBoundsBelow(x, q, b);
      calc { q * b - b; < x * b; == a; }
      calc { a; == x * b; <= q * b; }
    }
  }

  /** JavaScript `a % b` for `b > 0`: the remainder of truncated division, with the sign of `a`. */
  function Rem(a: real, b: real): (r: real)
    requires b > 0.0
    ensures 0.0 <= a ==> 0.0 <= r < b
    ensures a < 0.0 ==> -b < r <= 0.0
    ensures OnGrid(a - r, 0.0, b)
  {
    var q := Trunc(a / b);
    TruncScale(a, b);
    GridPoint(0.0, b, q);
    assert a - (a - q as real * b) == 0.0 + q as real * b;
    a - q as real * b
  }

  /** The floored quotient times the divisor is the grid point at or below `a`. */
  lemma FloorScale(a: real, b: real)
    requires b > 0.0
    ensures Floor(a / b) as real * b <= a < Floor(a / b) as real * b + b
  {
    var x := a / b;
    ScaleBounds(x, Floor(x) as real, b);
    calc { Floor(x) as real * b; <= x * b; == a; }
    calc { a; == x * b; < Floor(x) as real * b + b; }
  }

  /** The floored remainder: the phase of `a` inside a period `b`, always in `[0, b)`. */
  function Phase(a: real, b: real): (r: real)
    requires b > 0.0
    ensures 0.0 <= r < b
    ensures OnGrid(a - r, 0.0, b)
  {
    var q := Floor(a / b);
    FloorScale(a, b);
    GridPoint(0.0, b, q);
    assert a - (a - q as real * b) == 0.0 + q as real * b;
    a - q as real * b
  }
}
