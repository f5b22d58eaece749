/** The numeric primitives the core uses: Python's `min`/`max` on two numbers,
    `sum` over a list of reals, and `round(x, digits)`, all over exact reals. */
module Numeric {

  function Max(a: real, b: real): (m: real)
    ensures m >= a && m >= b && (m == a || m == b)
  {
    if a >= b then a else b
  }

  function Min(a: real, b: real): (m: real)
    ensures m <= a && m <= b && (m == a || m == b)
  {
    if a <= b then a else b
  }

  /** `min(100, max(0, x))`: the score clamp of the risk model. */
  function Clamp100(x: real): (r: real)
    ensures 0.0 <= r <= 100.0
    ensures 0.0 <= x <= 100.0 ==> r == x
    ensures x < 0.0 ==> r == 0.0
    ensures x > 100.0 ==> r == 100.0
  {
    Min(100.0, Max(0.0, x))
  }

  /** The clamp never reverses the order of two scores. */
  lemma Clamp100Monotone(x: real, y: real)
    requires x <= y
    ensures Clamp100(x) <= Clamp100(y)
  {
  }

  /** `sum(xs)` over a list of reals. */
  function SumReals(xs: seq<real>): real
  {
    if xs == [] then 0.0 else xs[0] + SumReals(xs[1..])
  }

  lemma {:induction false} SumRealsAppend(a: seq<real>, b: seq<real>)
    ensures SumReals(a + b) == SumReals(a) + SumReals(b)
  {
    if a != [] {
      assert (a + b)[1..] == a[1..] + b;
      SumRealsAppend(a[1..], b);
    } else {
      assert a + b == b;
    }
  }

  lemma {:induction false} SumRealsNonNegative(xs: seq<real>)
    requires forall i :: 0 <= i < |xs| ==> xs[i] >= 0.0
    ensures SumReals(xs) >= 0.0
  {
    if xs != [] {
      SumRealsNonNegative(xs[1..]);
    }
  }

  function Pow10(d: nat): (p: nat)
    ensures p >= 1
  {
    if d == 0 then 1 else 10 * Pow10(d - 1)
  }

  /** The integer nearest to `y`, ties going to the even one. */
  function NearestEven(y: real): (n: int)
    ensures -0.5 <= n as real - y <= 0.5
    ensures y.Floor <= n <= y.Floor + 1
    ensures n == y.Floor + 1 ==> y.Floor as real < y
    ensures y - y.Floor as real == 0.5 ==> n % 2 == 0
  {
    var f := y.Floor;
    var frac := y - f as real;
    if frac < 0.5 then f
    else if frac > 0.5 then f + 1
    else if f % 2 == 0 then f
    else f + 1
  }

  /** 10^digits as a real: the scale at which `round(x, digits)` rounds to an integer. */
  function Scale(digits: nat): (s: real)
    ensures s >= 1.0
  {
    Pow10(digits) as real
  }

  /** Python's `round(x, digits)` over exact reals: the multiple of 10^-digits
      nearest to `x`, ties going to the even multiple. */
  function Round(x: real, digits: nat): (r: real)
    ensures -0.5 / Scale(digits) <= r - x <= 0.5 / Scale(digits)
  {
    RoundErrorBound(x, Scale(digits), NearestEven(x * Scale(digits)));
    NearestEven(x * Scale(digits)) as real / Scale(digits)
  }

  /** `round(x, 1)` is within 0.05 of `x`. */
  lemma RoundOneDigitError(x: real)
    ensures -0.05 <= Round(x, 1) - x <= 0.05
  {
    assert Scale(1) == 10.0;
  }

  /** `round(x, 2)` is within 0.005 of `x`. */
  lemma RoundTwoDigitsError(x: real)
    ensures -0.005 <= Round(x, 2) - x <= 0.005
  {
    assert Scale(2) == 100.0;
  }

  lemma RoundErrorBound(x: real, scale: real, n: int)
    requires scale >= 1.0
    requires -0.5 <= n as real - x * scale <= 0.5
    ensures -0.5 / scale <= n as real / scale - x <= 0.5 / scale
  {
    var e := n as real / scale - x;
    assert e * scale == n as real - x * scale;
    ScaledWithin(e, scale, -0.5, 0.5);
  }

  /** Dividing by a positive scale keeps a scaled bound: lo <= v <= hi when lo*s <= v*s <= hi*s. */
  lemma ScaledWithin(v: real, scale: real, lo: real, hi: real)
    requires scale > 0.0
    requires lo <= v * scale <= hi
    ensures lo / scale <= v <= hi / scale
  {
    assert v - lo / scale == (v * scale - lo) / scale;
    assert hi / scale - v == (hi - v * scale) / scale;
  }

  /** A total of `n` values each in [lo, hi], divided by `n`, lies in [lo, hi]. */
  lemma MeanWithin(total: real, n: real, lo: real, hi: real)
    requires n > 0.0
    requires n * lo <= total <= n * hi
    ensures lo <= total / n <= hi
  {
    assert total / n - lo == (total - n * lo) / n;
    assert hi - total / n == (n * hi - total) / n;
  }

  lemma MulStrictMonotone(a: real, b: real, c: real)
    requires a < b && c > 0.0
    ensures a * c < b * c
  {
    assert b * c - a * c == (b - a) * c;
  }

  lemma MulMonotone(a: real, b: real, c: real)
    requires a <= b && c >= 0.0
    ensures a * c <= b * c
  {
    assert b * c - a * c == (b - a) * c;
  }

  lemma MulMonotoneLeft(c: real, a: real, b: real)
    requires a <= b && c >= 0.0
    ensures c * a <= c * b
  {
    assert c * b - c * a == c * (b - a);
  }

  lemma SquareStrictMonotone(a: real, b: real)
    requires 0.0 <= a < b
    ensures a * a < b * b
  {
    assert b * b - a * a == (b - a) * (b + a);
    MulStrictMonotone(0.0, b - a, b + a);
  }

  lemma SquareMonotone(a: real, b: real)
    requires 0.0 <= a <= b
    ensures a * a <= b * b
  {
    assert b * b - a * a == (b - a) * (b + a);
    MulMonotone(0.0, b - a, b + a);
  }

  /** The nearest integer to a number between two integers lies between them. */
  lemma NearestEvenWithin(y: real, l: int, h: int)
    requires l as real <= y <= h as real
    ensures l <= NearestEven(y) <= h
  {
  }

  lemma RoundUnfold(x: real, digits: nat)
    ensures Round(x, digits) == NearestEven(x * Scale(digits)) as real / Scale(digits)
  {
  }

  lemma IntProductAsReal(a: int, b: int)
    ensures (a * b) as real == a as real * b as real
  {
  }

  /** The integer nearest to x*p, for x between two integers, lies between the scaled integers. */
  lemma ScaledNearestWithin(x: real, p: nat, lo: int, hi: int)
    requires lo as real <= x <= hi as real
    ensures lo * p <= NearestEven(x * p as real) <= hi * p
  {
    var y := x * p as real;
    var l, h := lo * p, hi * p;
    assert l as real <= y <= h as real by {
      MulMonotone(lo as real, x, p as real);
      MulMonotone(x, hi as real, p as real);
      IntProductAsReal(lo, p);
      IntProductAsReal(hi, p);
    }
    assert l <= NearestEven(y) <= h by {
      NearestEvenWithin(y, l, h);
    }
  }

  /** An integer between lo*p and hi*p, divided by p, lies between lo and hi. */
  lemma UnscaledWithin(n: int, p: nat, lo: int, hi: int)
    requires p >= 1
    requires lo * p <= n <= hi * p
    ensures lo as real <= n as real / p as real <= hi as real
  {
    IntProductAsReal(lo, p);
    IntProductAsReal(hi, p);
    var r := n as real / p as real;
    assert r * p as real == n as real;
    ScaledWithin(r, p as real, lo as real * p as real, hi as real * p as real);
  }

  /** Rounding a number between two integers stays between them: rounding never
      leaves an integer-bounded range such as [0, 100]. */
  lemma RoundWithin(x: real, digits: nat, lo: int, hi: int)
    requires lo as real <= x <= hi as real
    ensures lo as real <= Round(x, digits) <= hi as real
  {
    assert Scale(digits) == Pow10(digits) as real;
    ScaledNearestWithin(x, Pow10(digits), lo, hi);
    UnscaledWithin(NearestEven(x * Scale(digits)), Pow10(digits), lo, hi);
    RoundUnfold(x, digits);
  }
}
