/** Arithmetic shared by the two indicator libraries: the EMA smoothing
    factor, sums and extrema of price windows, and the two-decimal rounding
    that `parseFloat(x.toFixed(2))` performs. Prices are exact reals. */
module Numeric {

  function Min(a: int, b: int): int { if a <= b then a else b }

  /** The EMA smoothing factor `2 / (period + 1)`. */
  function Smoothing(period: nat): (k: real)
    ensures 0.0 < k <= 2.0
    ensures period >= 1 ==> k <= 1.0
  {
    2.0 / (period as real + 1.0)
  }

  /** One EMA step, `price*k + prev*(1-k)`, as both libraries write it. */
  function EmaStep(price: real, prev: real, k: real): real
  {
    price * k + prev * (1.0 - k)
  }

  /** Left-to-right sum, as `reduce((a, b) => a + b, 0)` computes it. */
  function Sum(s: seq<real>): real
  {
    if |s| == 0 then 0.0 else Sum(s[..|s| - 1]) + s[|s| - 1]
  }

  function MinOf(s: seq<real>): (m: real)
    requires |s| > 0
    ensures forall i :: 0 <= i < |s| ==> m <= s[i]
    ensures exists i :: 0 <= i < |s| && m == s[i]
  {
    if |s| == 1 then s[0]
    else
      var m := MinOf(s[..|s| - 1]);
      assert forall i :: 0 <= i < |s| - 1 ==> s[..|s| - 1][i] == s[i];
      if s[|s| - 1] < m then s[|s| - 1] else m
  }

  function MaxOf(s: seq<real>): (m: real)
    requires |s| > 0
    ensures forall i :: 0 <= i < |s| ==> s[i] <= m
    ensures exists i :: 0 <= i < |s| && m == s[i]
  {
    if |s| == 1 then s[0]
    else
      var m := MaxOf(s[..|s| - 1]);
      assert forall i :: 0 <= i < |s| - 1 ==> s[..|s| - 1][i] == s[i];
      if s[|s| - 1] > m then s[|s| - 1] else m
  }

  lemma ProductNonNegative(x: real, y: real)
    requires x >= 0.0 && y >= 0.0
    ensures x * y >= 0.0
  {
  }

  lemma QuotientNonNegative(x: real, y: real)
    requires x >= 0.0 && y > 0.0
    ensures x / y >= 0.0
  {
  }

  /** A weighted average `a*k + b*(1-k)` with `0 <= k <= 1` stays within any
      interval holding both `a` and `b`. */
  lemma ConvexCombinationBetween(a: real, b: real, k: real, lo: real, hi: real)
    requires 0.0 <= k <= 1.0
    requires lo <= a <= hi && lo <= b <= hi
    ensures lo <= EmaStep(a, b, k) <= hi
  {
    var j := 1.0 - k;
    var ak, bj := a * k, b * j;
    ProductNonNegative(a - lo, k);
    ProductNonNegative(hi - a, k);
    ProductNonNegative(b - lo, j);
    ProductNonNegative(hi - b, j);
    assert (a - lo) * k == ak - lo * k && (hi - a) * k == hi * k - ak;
    assert (b - lo) * j == bj - lo * j && (hi - b) * j == hi * j - bj;
    assert lo * k + lo * j == lo && hi * k + hi * j == hi;
    assert lo <= ak + bj <= hi;
  }

  /** The integer number of hundredths `toFixed(2)` writes for `x`: the
      magnitude is rounded to the nearest hundredth, the larger one on a
      tie, and the sign is written in front, so halves round away from zero. */
  function Cents(x: real): (c: int)
    ensures x * 100.0 - 0.5 <= c as real <= x * 100.0 + 0.5
  {
    if x < 0.0 then -((-x * 100.0 + 0.5).Floor) else (x * 100.0 + 0.5).Floor
  }

  /** `parseFloat(x.toFixed(2))`: `x` rounded to two decimals. */
  function Round2(x: real): (r: real)
    ensures x - 0.005 <= r <= x + 0.005
  {
    Cents(x) as real / 100.0
  }

  lemma {:induction false} FloorMonotone(a: real, b: real)
    requires a <= b
    ensures a.Floor <= b.Floor
  {
  }

  lemma Round2Monotone(x: real, y: real)
    requires x <= y
    ensures Round2(x) <= Round2(y)
  {
    if 0.0 <= x {
      FloorMonotone(x * 100.0 + 0.5, y * 100.0 + 0.5);
    } else if y < 0.0 {
      FloorMonotone(-y * 100.0 + 0.5, -x * 100.0 + 0.5);
    }
  }

  /** Two-decimal numbers are left as they are. */
  lemma Round2Fixes(n: int)
    ensures Round2(n as real / 100.0) == n as real / 100.0
  {
    var x := n as real / 100.0;
    assert x * 100.0 == n as real;
    if n >= 0 {
      assert (x * 100.0 + 0.5).Floor == n;
    } else {
      assert -x * 100.0 == (-n) as real;
      assert (-x * 100.0 + 0.5).Floor == -n;
    }
  }
}
