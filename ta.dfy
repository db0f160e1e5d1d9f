/** lib/ta.ts: indicator values for the LAST price only, NaN (here None)
    when there are too few prices, rounded to two decimals. */
module Ta {
  import opened Wrappers
  import opened Numeric

  // ---------------------------------------------------------------- EMA

  /** The EMA recurrence run over the whole array, seeded with `prices[0]`. */
  function EmaFold(prices: seq<real>, k: real): real
    requires |prices| > 0
    decreases |prices|
  {
    if |prices| == 1 then prices[0]
    else EmaStep(prices[|prices| - 1], EmaFold(prices[..|prices| - 1], k), k)
  }

  /** What `calculateEMA` returns: NaN for fewer than `period` prices,
      otherwise the rounded last value of the recurrence. */
  function Ema(prices: seq<real>, period: nat): (r: Option<real>)
    requires 0 < period || 0 < |prices|
    ensures r.None? <==> |prices| < period
    ensures r.Some? ==> r.value == Round2(EmaFold(prices, Smoothing(period)))
  {
    if |prices| < period then None else Some(Round2(EmaFold(prices, Smoothing(period))))
  }

  /** `calculateEMA`. The guard leaves at least one price whenever the period
      is positive; with period 0 and no prices the source reads `prices[0]`
      as undefined and throws, which the precondition excludes. */
  method CalculateEMA(prices: seq<real>, period: nat) returns (r: Option<real>)
    requires 0 < period || 0 < |prices|
    ensures r == Ema(prices, period)
  {
    if |prices| < period {
      return None;
    }
    var k := Smoothing(period);
    var ema := prices[0];
    var i := 1;
    while i < |prices|
      invariant 1 <= i <= |prices|
      invariant ema == EmaFold(prices[..i], k)
    {
      assert prices[..i + 1][..i] == prices[..i];
      ema := prices[i] * k + ema * (1.0 - k);
      i := i + 1;
    }
    assert prices[..i] == prices;
    return Some(Round2(ema));
  }

  /** A constant series folds to that constant. */
  lemma {:induction false} EmaFoldOfConstant(prices: seq<real>, k: real, c: real)
    requires |prices| > 0
    requires forall i :: 0 <= i < |prices| ==> prices[i] == c
    ensures EmaFold(prices, k) == c
    decreases |prices|
  {
    if |prices| > 1 {
      EmaFoldOfConstant(prices[..|prices| - 1], k, c);
      assert EmaStep(c, c, k) == c * k + c * (1.0 - k) == c;
    }
  }

  // ---------------------------------------------------------------- RSI

  /** Running totals of the RSI loop. */
  datatype Totals = Totals(gains: real, losses: real)

  /** The totals after the loop has visited indices `lo .. hi-1`: a change
      `prices[i] - prices[i-1]` of zero or more adds to the gains, a negative
      one adds its size to the losses. */
  function Accumulate(prices: seq<real>, lo: nat, hi: nat): (t: Totals)
    requires 1 <= lo <= hi <= |prices|
    ensures t.gains >= 0.0 && t.losses >= 0.0
    decreases hi - lo
  {
    if hi == lo then Totals(0.0, 0.0)
    else
      var t := Accumulate(prices, lo, hi - 1);
      var diff := prices[hi - 1] - prices[hi - 2];
      if diff >= 0.0 then Totals(t.gains + diff, t.losses) else Totals(t.gains, t.losses - diff)
  }

  /** The totals over the last `period` changes. */
  function LastTotals(prices: seq<real>, period: nat): Totals
    requires |prices| >= period + 1
  {
    Accumulate(prices, |prices| - period, |prices|)
  }

  /** What `calculateRSI` returns: NaN for fewer than `period + 1` prices,
      exactly 100 without losses, otherwise `100 - 100/(1 + gains/losses)`
      rounded; always within [0, 100]. */
  function Rsi(prices: seq<real>, period: nat): (r: Option<real>)
    ensures r.None? <==> |prices| < period + 1
    ensures r.Some? ==> 0.0 <= r.value <= 100.0
  {
    if |prices| < period + 1 then None
    else
      var t := LastTotals(prices, period);
      if t.losses == 0.0 then Some(100.0)
      else
        QuotientNonNegative(t.gains, t.losses);
        var raw := 100.0 - 100.0 / (1.0 + t.gains / t.losses);
        Round2Monotone(0.0, raw);
        Round2Monotone(raw, 100.0);
        Round2Fixes(0);
        Round2Fixes(10000);
        Some(Round2(raw))
  }

  /** `calculateRSI`: one pass over the last `period` changes. */
  method CalculateRSI(prices: seq<real>, period: nat) returns (r: Option<real>)
    ensures r == Rsi(prices, period)
  {
    if |prices| < period + 1 {
      return None;
    }
    var gains, losses := 0.0, 0.0;
    var i := |prices| - period;
    while i < |prices|
      invariant |prices| - period <= i <= |prices|
      invariant Totals(gains, losses) == Accumulate(prices, |prices| - period, i)
    {
      var diff := prices[i] - prices[i - 1];
      if diff >= 0.0 {
        gains := gains + diff;
      } else {
        losses := losses - diff;
      }
      i := i + 1;
    }
    if losses == 0.0 {
      return Some(100.0);
    }
    QuotientNonNegative(gains, losses);
    var rs := gains / losses;
    return Some(Round2(100.0 - 100.0 / (1.0 + rs)));
  }

  /** The totals only read the prices from `lo - 1` on: dropping a prefix
      before that changes nothing. */
  lemma {:induction false} AccumulateOfSuffix(prices: seq<real>, s: nat, lo: nat, hi: nat)
    requires s + 1 <= lo <= hi <= |prices|
    ensures Accumulate(prices, lo, hi) == Accumulate(prices[s..], lo - s, hi - s)
    decreases hi - lo
  {
    if hi > lo {
      AccumulateOfSuffix(prices, s, lo, hi - 1);
    }
  }

  /** Only the last `period + 1` prices (the last `period` changes) matter:
      two series that end alike have the same RSI. */
  lemma RsiReadsOnlyLastWindow(p: seq<real>, q: seq<real>, period: nat)
    requires |p| >= period + 1 && |q| >= period + 1
    requires p[|p| - period - 1..] == q[|q| - period - 1..]
    ensures Rsi(p, period) == Rsi(q, period)
  {
    AccumulateOfSuffix(p, |p| - period - 1, |p| - period, |p|);
    AccumulateOfSuffix(q, |q| - period - 1, |q| - period, |q|);
  }

  /** A window without a single fall gives exactly 100. */
  lemma {:induction false} NoFallNoLosses(prices: seq<real>, lo: nat, hi: nat)
    requires 1 <= lo <= hi <= |prices|
    requires forall i :: lo <= i < hi ==> prices[i] >= prices[i - 1]
    ensures Accumulate(prices, lo, hi).losses == 0.0
    decreases hi - lo
  {
    if hi > lo {
      NoFallNoLosses(prices, lo, hi - 1);
    }
  }

  lemma RsiWithoutFallIsHundred(prices: seq<real>, period: nat)
    requires |prices| >= period + 1
    requires forall i :: |prices| - period <= i < |prices| ==> prices[i] >= prices[i - 1]
    ensures Rsi(prices, period) == Some(100.0)
  {
    NoFallNoLosses(prices, |prices| - period, |prices|);
  }

  // --------------------------------------------------------------- MACD

  /** `calculateMACD`: NaN unless both EMAs are defined, otherwise the
      rounded difference of the two already rounded EMAs. Both EMAs have
      two decimals, so their difference has too and the final rounding
      leaves it as it is. */
  function CalculateMACD(prices: seq<real>): (r: Option<real>)
    ensures r.None? <==> |prices| < 26
    ensures r.Some? ==> Ema(prices, 12).Some? && Ema(prices, 26).Some?
    ensures r.Some? ==> r.value == Ema(prices, 12).value - Ema(prices, 26).value
  {
    var ema12 := Ema(prices, 12);
    var ema26 := Ema(prices, 26);
    if ema12.None? || ema26.None? then None
    else
      var a := Cents(EmaFold(prices, Smoothing(12)));
      var b := Cents(EmaFold(prices, Smoothing(26)));
      assert ema12.value - ema26.value == (a - b) as real / 100.0;
      Round2Fixes(a - b);
      Some(Round2(ema12.value - ema26.value))
  }

  /** A flat series of at least 26 prices has MACD 0. */
  lemma MacdOfConstantIsZero(prices: seq<real>, c: real)
    requires |prices| >= 26
    requires forall i :: 0 <= i < |prices| ==> prices[i] == c
    ensures CalculateMACD(prices) == Some(0.0)
  {
    EmaFoldOfConstant(prices, Smoothing(12), c);
    EmaFoldOfConstant(prices, Smoothing(26), c);
    Round2Fixes(0);
  }
}
