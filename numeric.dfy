/**
 * Python's numeric built-ins as the generator and the helpers use them:
 * `int()` on a float (truncation toward zero), `round(x, k)` (round half to
 * even), `random.randint`, `random.choice`, floor division and the
 * sum / mean / min / max of a list. Floats are modelled as exact reals.
 */
module Numeric {
  import Wrappers

  /** A `random.random()` draw. */
  type UnitReal = r: real | 0.0 <= r < 1.0

  /** A standard exponential draw (`np.random.exponential(scale)` is `scale` times one). */
  type NonNegReal = r: real | r >= 0.0

  /** Python `abs`. */
  function Abs(x: real): (r: real)
    ensures r >= 0.0
    ensures r == x || r == -x
  {
    if x < 0.0 then -x else x
  }

  /** Python `int(x)` on a float: truncation toward zero. */
  function Trunc(x: real): (r: int)
    ensures x >= 0.0 ==> r as real <= x < r as real + 1.0
    ensures x < 0.0 ==> r as real - 1.0 < x <= r as real
  {
    if x >= 0.0 then x.Floor else -((-x).Floor)
  }

  /** Python `round(x)` to an integer: the nearest integer, ties to the even one. */
  function RoundHalfEven(x: real): (r: int)
    ensures x - 0.5 <= r as real <= x + 0.5
    ensures (r as real - x == 0.5 || x - r as real == 0.5) ==> r % 2 == 0
  {
    var f := x.Floor;
    var frac := x - f as real;
    if frac < 0.5 then f
    else if frac > 0.5 then f + 1
    else if f % 2 == 0 then f
    else f + 1
  }

  function Pow10(k: nat): (p: nat)
    ensures p >= 1
  {
    if k == 0 then 1 else 10 * Pow10(k - 1)
  }

  /** Python `round(x, k)`: `x` rounded to `k` decimal places, ties to even. */
  function Round(x: real, k: nat): (r: real)
    ensures Abs(r - x) <= 0.5 / Pow10(k) as real
  {
    RoundScaled(x, Pow10(k) as real)
  }

  /** `x` rounded to the nearest multiple of `1 / p`, ties to even. */
  function RoundScaled(x: real, p: real): (r: real)
    requires p >= 1.0
    ensures Abs(r - x) <= 0.5 / p
    ensures x * p == (x * p).Floor as real ==> r == x
  {
    var n := RoundHalfEven(x * p);
    ScaleError(x, n as real, p);
    if x * p == (x * p).Floor as real then
      assert n as real == x * p;
      CancelDiv(x, p);
      n as real / p
    else n as real / p
  }

  lemma ScaleError(x: real, n: real, p: real)
    requires p >= 1.0 && Abs(n - x * p) <= 0.5
    ensures Abs(n / p - x) <= 0.5 / p
  {
    assert n / p - x == (n - x * p) / p;
    DivBound(n - x * p, p);
  }

  lemma DivBound(e: real, p: real)
    requires p >= 1.0 && Abs(e) <= 0.5
    ensures Abs(e / p) <= 0.5 / p
  {
    DivMonotone(e, 0.5, p);
    DivMonotone(-0.5, e, p);
    assert (-0.5) / p == -(0.5 / p);
  }

  lemma MulMonotone(x: real, y: real, p: real)
    requires x <= y && p > 0.0
    ensures x * p <= y * p
  {
    assert y * p - x * p == (y - x) * p;
  }

  lemma DivMonotone(a: real, b: real, p: real)
    requires a <= b && p > 0.0
    ensures a / p <= b / p
  {
    assert b / p - a / p == (b - a) / p;
  }

  lemma RoundHalfEvenMonotone(x: real, y: real)
    requires x <= y
    ensures RoundHalfEven(x) <= RoundHalfEven(y)
  {
    var fx, fy := x.Floor, y.Floor;
    assert fx <= fy;
    if fx == fy {
      var a, b := x - fx as real, y - fx as real;
      assert a <= b;
      if RoundHalfEven(x) == fx + 1 {
        assert a >= 0.5;
        if b == 0.5 {
          assert a == 0.5;
        } else {
          assert b > 0.5;
        }
      }
    } else {
      assert RoundHalfEven(x) <= fx + 1 <= fy <= RoundHalfEven(y);
    }
  }

  lemma RoundScaledMonotone(x: real, y: real, p: real)
    requires x <= y && p >= 1.0
    ensures RoundScaled(x, p) <= RoundScaled(y, p)
  {
    MulMonotone(x, y, p);
    RoundHalfEvenMonotone(x * p, y * p);
    DivMonotone(RoundHalfEven(x * p) as real, RoundHalfEven(y * p) as real, p);
  }

  /** Rounding keeps order. */
  lemma RoundMonotone(x: real, y: real, k: nat)
    requires x <= y
    ensures Round(x, k) <= Round(y, k)
  {
    RoundScaledMonotone(x, y, Pow10(k) as real);
  }

  /** A multiple of `1 / p` rounds to itself. */
  lemma RoundScaledExact(n: int, p: real)
    requires p >= 1.0
    ensures RoundScaled(n as real / p, p) == n as real / p
  {
    var x := n as real / p;
    CancelDiv2(n as real, p);
    assert x * p == n as real;
    assert (n as real).Floor == n;
    assert x * p == (x * p).Floor as real;
    RoundScaledOfExact(x, p);
  }

  lemma RoundScaledOfExact(x: real, p: real)
    requires p >= 1.0 && x * p == (x * p).Floor as real
    ensures RoundScaled(x, p) == x
  {
  }

  lemma CancelDiv2(a: real, p: real)
    requires p >= 1.0
    ensures (a / p) * p == a
  {
  }

  /** Rounding an already rounded value changes nothing. */
  lemma RoundIdempotent(x: real, k: nat)
    ensures Round(Round(x, k), k) == Round(x, k)
  {
    var p := Pow10(k) as real;
    var n := RoundHalfEven(x * p);
    var r := Round(x, k);
    assert r == RoundScaled(x, p);
    RoundScaledIs(x, p);
    assert r == n as real / p;
    RoundScaledExact(n, p);
    assert Round(r, k) == RoundScaled(r, p);
  }

  lemma RoundScaledIs(x: real, p: real)
    requires p >= 1.0
    ensures RoundScaled(x, p) == RoundHalfEven(x * p) as real / p
  {
  }

  /** Adding two values already rounded to `k` decimals needs no further rounding. */
  lemma RoundSumOfRounded(a: real, b: real, k: nat)
    ensures Round(Round(a, k) + Round(b, k), k) == Round(a, k) + Round(b, k)
  {
    RoundScaledSum(a, b, Pow10(k) as real);
  }

  lemma RoundScaledSum(a: real, b: real, p: real)
    requires p >= 1.0
    ensures RoundScaled(RoundScaled(a, p) + RoundScaled(b, p), p) == RoundScaled(a, p) + RoundScaled(b, p)
  {
    var n, m := RoundHalfEven(a * p), RoundHalfEven(b * p);
    assert n as real / p + m as real / p == (n + m) as real / p;
    RoundScaledExact(n + m, p);
  }

  /** Python's `xs[i]`: negative indexes count from the end; `None` where it raises IndexError. */
  function PyIndex(n: nat, i: int): (r: Wrappers.Option<nat>)
    ensures r.Some? <==> 0 <= i + n && i < n
    ensures r.Some? ==> r.value < n && (r.value == i || r.value == i + n)
  {
    if 0 <= i < n then Wrappers.Some(i as nat)
    else if 0 <= i + n && i < 0 then Wrappers.Some((i + n) as nat)
    else Wrappers.None
  }

  /** `np.random.normal(mu, sigma)` driven by the standard normal draw `z`. */
  function Normal(mu: real, sigma: real, z: real): real
  {
    mu + sigma * z
  }

  /** `np.random.exponential(scale)` driven by the standard exponential draw `e`. */
  function Exponential(scale: real, e: NonNegReal): (r: real)
    requires scale >= 0.0
    ensures r >= 0.0
  {
    scale * e
  }

  /** `random.randint(a, b)` driven by the draw `u`: a value in [a, b]. */
  function RandInt(u: nat, a: int, b: int): (r: int)
    requires a <= b
    ensures a <= r <= b
  {
    a + u % (b - a + 1)
  }

  /** `random.choice(xs)` driven by the draw `u`: an element of `xs`. */
  function Choice<T>(u: nat, xs: seq<T>): (r: T)
    requires |xs| > 0
    ensures r in xs
  {
    xs[u % |xs|]
  }

  /** A generator's plan turned into records, slot by slot, as its inner loop appends them. */
  function Rows<S, R>(make: S -> R, slots: seq<S>): (rows: seq<R>)
    ensures |rows| == |slots|
    ensures forall i :: 0 <= i < |slots| ==> rows[i] == make(slots[i])
  {
    seq(|slots|, i requires 0 <= i < |slots| => make(slots[i]))
  }

  /** Python `a // b`: floor division for either sign of the divisor. */
  function FloorDiv(a: int, b: int): (q: int)
    requires b != 0
    ensures b > 0 ==> q * b <= a < q * b + b
    ensures b < 0 ==> q * b + b < a <= q * b
  {
    if b > 0 then a / b else (-a) / (-b)
  }

  function Sum(xs: seq<real>): real
  {
    if xs == [] then 0.0 else Sum(xs[..|xs| - 1]) + xs[|xs| - 1]
  }

  /** `np.mean` / `sum(xs) / len(xs)`. */
  function Mean(xs: seq<real>): real
    requires |xs| > 0
  {
    Sum(xs) / |xs| as real
  }

  /** Python `min(xs)`. */
  function MinOf(xs: seq<real>): (m: real)
    requires |xs| > 0
    ensures m in xs
    ensures forall i :: 0 <= i < |xs| ==> m <= xs[i]
  {
    if |xs| == 1 then xs[0]
    else var rest := MinOf(xs[1..]); if xs[0] <= rest then xs[0] else rest
  }

  /** Python `max(xs)`. */
  function MaxOf(xs: seq<real>): (m: real)
    requires |xs| > 0
    ensures m in xs
    ensures forall i :: 0 <= i < |xs| ==> xs[i] <= m
  {
    if |xs| == 1 then xs[0]
    else var rest := MaxOf(xs[1..]); if xs[0] >= rest then xs[0] else rest
  }

  lemma {:induction false} SumBounds(xs: seq<real>, lo: real, hi: real)
    requires forall i :: 0 <= i < |xs| ==> lo <= xs[i] <= hi
    ensures |xs| as real * lo <= Sum(xs) <= |xs| as real * hi
  {
    if xs != [] {
      SumBounds(xs[..|xs| - 1], lo, hi);
    }
  }

  lemma CancelDiv(a: real, n: real)
    requires n > 0.0
    ensures (n * a) / n == a
  {
  }

  /** The mean of a list lies between its minimum and its maximum. */
  lemma MeanBetweenMinMax(xs: seq<real>)
    requires |xs| > 0
    ensures MinOf(xs) <= Mean(xs) <= MaxOf(xs)
  {
    MeanWithin(xs, MinOf(xs), MaxOf(xs));
  }

  /** Any bounds on every element bound the mean. */
  lemma MeanWithin(xs: seq<real>, lo: real, hi: real)
    requires |xs| > 0
    requires forall i :: 0 <= i < |xs| ==> lo <= xs[i] <= hi
    ensures lo <= Mean(xs) <= hi
  {
    SumBounds(xs, lo, hi);
    MeanBounds(Sum(xs), |xs| as real, lo, hi);
  }

  /** A ratio of counts as a percentage lies in [0, 100], and is 100 only for equal counts. */
  lemma RatioPercent(p: nat, t: nat)
    requires 0 < t && p <= t
    ensures 0.0 <= p as real / t as real * 100.0 <= 100.0
    ensures p as real / t as real * 100.0 == 100.0 <==> p == t
  {
    var x := p as real / t as real;
    assert x * t as real == p as real;
    if x > 1.0 {
      MulMonotone(1.0, x, t as real);
    }
    if x < 0.0 {
      MulMonotone(x, 0.0, t as real);
    }
    if x == 1.0 {
      assert p as real == t as real;
    }
  }

  /** A percentage rounded stays a percentage, and its two ends round to themselves. */
  lemma RoundPercent(x: real, k: nat)
    requires 0.0 <= x <= 100.0
    ensures 0.0 <= Round(x, k) <= 100.0
    ensures x == 0.0 ==> Round(x, k) == 0.0
    ensures x == 100.0 ==> Round(x, k) == 100.0
  {
    RoundMonotone(0.0, x, k);
    RoundMonotone(x, 100.0, k);
    RoundScaledOfExact(0.0, Pow10(k) as real);
    RoundScaledOfExact(100.0, Pow10(k) as real);
  }

  lemma MeanBounds(s: real, n: real, lo: real, hi: real)
    requires n >= 1.0 && n * lo <= s <= n * hi
    ensures lo <= s / n <= hi
  {
    DivMonotone(n * lo, s, n);
    DivMonotone(s, n * hi, n);
    CancelDiv(lo, n);
    CancelDiv(hi, n);
  }
}
