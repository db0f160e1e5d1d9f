/** lib/indicators.ts: indicator SERIES, one output per input price (MACD,
    EMA) or per price change (RSI), recomputed from the whole close array.
    The EMA is seeded with the first price, with no SMA warm-up, and the RSI
    averages are plain means over a sliding window, not Wilder smoothing. */
module Indicators {
  import opened Numeric

  // ---------------------------------------------------------------- EMA

  /** The EMA series: the first price, then `price*k + previous*(1-k)` for
      each later price, with `k = 2/(period+1)`. */
  function EmaSeries(data: seq<real>, period: nat): (r: seq<real>)
    ensures |r| == |data|
    decreases |data|
  {
    if |data| == 0 then []
    else if |data| == 1 then [data[0]]
    else
      var prev := EmaSeries(data[..|data| - 1], period);
      prev + [EmaStep(data[|data| - 1], prev[|prev| - 1], Smoothing(period))]
  }

  /** `calculateEMA`: one pass over `data`, pushing into `emaArray` and
      carrying the previous value in `prevEma`. */
  method CalculateEMA(data: seq<real>, period: nat) returns (emaArray: seq<real>)
    ensures emaArray == EmaSeries(data, period)
  {
    var k := Smoothing(period);
    emaArray := [];
    var prevEma := if |data| > 0 then data[0] else 0.0;
    var i := 0;
    while i < |data|
      invariant 0 <= i <= |data|
      invariant emaArray == EmaSeries(data[..i], period)
      invariant 0 < i ==> prevEma == emaArray[i - 1]
      invariant i == 0 < |data| ==> prevEma == data[0]
    {
      var price := data[i];
      assert data[..i + 1][..i] == data[..i];
      if i == 0 {
        assert EmaSeries(data[..1], period) == [price];
        emaArray := emaArray + [price];
      } else {
        var ema := price * k + prevEma * (1.0 - k);
        EmaUnfold(data[..i + 1], period);
        assert EmaSeries(data[..i + 1], period) == emaArray + [ema];
        emaArray := emaArray + [ema];
        prevEma := ema;
      }
      i := i + 1;
    }
    assert data[..|data|] == data;
  }

  lemma EmaUnfold(data: seq<real>, period: nat)
    requires |data| >= 2
    ensures var prev := EmaSeries(data[..|data| - 1], period);
            EmaSeries(data, period)
              == prev + [EmaStep(data[|data| - 1], prev[|data| - 2], Smoothing(period))]
  {
  }

  /** The EMA of a prefix is the prefix of the EMA: a value depends only on
      the prices up to its own index. */
  lemma {:induction false} EmaPrefix(data: seq<real>, period: nat, n: nat)
    requires n <= |data|
    ensures EmaSeries(data[..n], period) == EmaSeries(data, period)[..n]
    decreases |data|
  {
    if n == |data| {
      assert data[..n] == data;
    } else {
      var init := data[..|data| - 1];
      EmaPrefix(init, period, n);
      assert init[..n] == data[..n];
    }
  }

  /** The series starts at the first price. */
  lemma EmaStartsAtFirstPrice(data: seq<real>, period: nat)
    requires |data| > 0
    ensures EmaSeries(data, period)[0] == data[0]
  {
    EmaPrefix(data, period, 1);
  }

  /** Every later value is `data[i]*k + ema[i-1]*(1-k)`. */
  lemma EmaRecurrence(data: seq<real>, period: nat, i: nat)
    requires 1 <= i < |data|
    ensures EmaSeries(data, period)[i] == EmaStep(data[i], EmaSeries(data, period)[i - 1], Smoothing(period))
  {
    var pre := data[..i + 1];
    EmaPrefix(data, period, i + 1);
    EmaPrefix(data, period, i);
    assert pre[..i] == data[..i];
    EmaUnfold(pre, period);
  }

  /** For period >= 1 the EMA never leaves an interval holding every price. */
  lemma {:induction false} EmaBounded(data: seq<real>, period: nat, lo: real, hi: real)
    requires period >= 1
    requires forall i :: 0 <= i < |data| ==> lo <= data[i] <= hi
    ensures forall i :: 0 <= i < |data| ==> lo <= EmaSeries(data, period)[i] <= hi
    decreases |data|
  {
    if |data| >= 2 {
      var init := data[..|data| - 1];
      EmaBounded(init, period, lo, hi);
      var prev := EmaSeries(init, period);
      ConvexCombinationBetween(data[|data| - 1], prev[|prev| - 1], Smoothing(period), lo, hi);
    }
  }

  /** For period >= 1 each EMA value lies between the least and the greatest
      price seen so far. */
  lemma EmaWithinRunningRange(data: seq<real>, period: nat, i: nat)
    requires period >= 1 && i < |data|
    ensures MinOf(data[..i + 1]) <= EmaSeries(data, period)[i] <= MaxOf(data[..i + 1])
  {
    var seen := data[..i + 1];
    EmaBounded(seen, period, MinOf(seen), MaxOf(seen));
    EmaPrefix(data, period, i + 1);
  }

  /** A constant price series has a constant EMA, whatever the period. */
  lemma {:induction false} EmaOfConstant(data: seq<real>, period: nat, c: real)
    requires forall i :: 0 <= i < |data| ==> data[i] == c
    ensures forall i :: 0 <= i < |data| ==> EmaSeries(data, period)[i] == c
    decreases |data|
  {
    if |data| >= 2 {
      var init := data[..|data| - 1];
      EmaOfConstant(init, period, c);
      var k := Smoothing(period);
      assert EmaStep(c, c, k) == c * k + c * (1.0 - k) == c;
    }
  }

  // ---------------------------------------------------------------- RSI

  /** The positive part of a price change (`diff > 0 ? diff : 0`). */
  function Gain(diff: real): real { if diff > 0.0 then diff else 0.0 }

  /** The size of a fall (`diff < 0 ? Math.abs(diff) : 0`). */
  function Loss(diff: real): real { if diff < 0.0 then -diff else 0.0 }

  /** The number of price changes in a series of `n` prices. */
  function Changes(n: nat): nat { if n == 0 then 0 else n - 1 }

  /** The gain of change `j`, the move from `data[j]` to `data[j+1]`. */
  function GainAt(data: seq<real>, j: nat): real
    requires j + 1 < |data|
  {
    Gain(data[j + 1] - data[j])
  }

  /** The loss of change `j`, the move from `data[j]` to `data[j+1]`. */
  function LossAt(data: seq<real>, j: nat): real
    requires j + 1 < |data|
  {
    Loss(data[j + 1] - data[j])
  }

  /** Total gain of changes `lo .. hi-1`. */
  function WindowGain(data: seq<real>, lo: nat, hi: nat): (g: real)
    requires lo <= hi < |data|
    ensures g >= 0.0
    decreases hi - lo
  {
    if hi == lo then 0.0 else WindowGain(data, lo, hi - 1) + GainAt(data, hi - 1)
  }

  /** Total loss of changes `lo .. hi-1`. */
  function WindowLoss(data: seq<real>, lo: nat, hi: nat): (l: real)
    requires lo <= hi < |data|
    ensures l >= 0.0
    decreases hi - lo
  {
    if hi == lo then 0.0 else WindowLoss(data, lo, hi - 1) + LossAt(data, hi - 1)
  }

  /** `100 - 100/(1 + rs)`, where a zero average loss forces `rs` to 100. */
  function RsiFromAverages(avgGain: real, avgLoss: real): (rsi: real)
    requires avgGain >= 0.0 && avgLoss >= 0.0
    ensures 0.0 <= rsi < 100.0
    ensures avgLoss == 0.0 ==> rsi == 100.0 - 100.0 / 101.0
  {
    var rs := if avgLoss == 0.0 then 100.0 else avgGain / avgLoss;
    100.0 - 100.0 / (1.0 + rs)
  }

  /** The RSI pushed at loop index `i` (the change from `data[i-1]` to
      `data[i]`): neutral 50 while `i < period`, otherwise from the means of
      the last `period` gains and losses, the current one included. */
  function RsiAt(data: seq<real>, period: nat, i: nat): real
    requires period >= 1 && 1 <= i < |data|
  {
    if i >= period then
      var p := period as real;
      QuotientNonNegative(WindowGain(data, i - period, i), p);
      QuotientNonNegative(WindowLoss(data, i - period, i), p);
      RsiFromAverages(WindowGain(data, i - period, i) / p, WindowLoss(data, i - period, i) / p)
    else 50.0
  }

  /** The RSI series: one value per price change, the last one for the
      change into the last price. */
  function RsiSeries(data: seq<real>, period: nat): (r: seq<real>)
    requires period >= 1
    ensures |r| == Changes(|data|)
    decreases |data|
  {
    if |data| <= 1 then [] else RsiSeries(data[..|data| - 1], period) + [RsiAt(data, period, |data| - 1)]
  }

  /** Window totals only look at the prices they cover. */
  lemma {:induction false} WindowOfPrefix(data: seq<real>, lo: nat, hi: nat, n: nat)
    requires lo <= hi < n <= |data|
    ensures WindowGain(data[..n], lo, hi) == WindowGain(data, lo, hi)
    ensures WindowLoss(data[..n], lo, hi) == WindowLoss(data, lo, hi)
    decreases hi - lo
  {
    if hi > lo {
      WindowOfPrefix(data, lo, hi - 1, n);
    }
  }

  /** An RSI value depends only on the prices up to its own index. */
  lemma RsiAtOfPrefix(data: seq<real>, period: nat, i: nat, n: nat)
    requires period >= 1 && 1 <= i < n <= |data|
    ensures RsiAt(data[..n], period, i) == RsiAt(data, period, i)
  {
    if i >= period {
      WindowOfPrefix(data, i - period, i, n);
    }
  }

  /** Output `j` of the series is the value for loop index `j + 1`. */
  lemma {:induction false} RsiSeriesAt(data: seq<real>, period: nat, j: nat)
    requires period >= 1 && j < Changes(|data|)
    ensures RsiSeries(data, period)[j] == RsiAt(data, period, j + 1)
    decreases |data|
  {
    if j + 2 < |data| {
      var init := data[..|data| - 1];
      RsiSeriesAt(init, period, j);
      RsiAtOfPrefix(data, period, j + 1, |data| - 1);
    }
  }

  /** Extending the prices by one extends the series by one value. */
  lemma RsiSeriesStep(data: seq<real>, period: nat, i: nat)
    requires period >= 1 && 1 <= i < |data|
    ensures RsiSeries(data[..i + 1], period) == RsiSeries(data[..i], period) + [RsiAt(data, period, i)]
  {
    RsiAtOfPrefix(data, period, i, i + 1);
    assert data[..i + 1][..i] == data[..i];
  }

  /** The loop's `gains` array holds the gain of every change seen so far,
      and summing a slice of it gives the window total. */
  lemma {:induction false} SumOfGainSlice(data: seq<real>, gains: seq<real>, lo: nat, hi: nat)
    requires lo <= hi <= |gains| && |gains| < |data|
    requires forall j :: 0 <= j < |gains| ==> gains[j] == GainAt(data, j)
    ensures Sum(gains[lo..hi]) == WindowGain(data, lo, hi)
    decreases hi - lo
  {
    if hi > lo {
      SumOfGainSlice(data, gains, lo, hi - 1);
      assert gains[lo..hi][..hi - lo - 1] == gains[lo..hi - 1];
    }
  }

  lemma {:induction false} SumOfLossSlice(data: seq<real>, losses: seq<real>, lo: nat, hi: nat)
    requires lo <= hi <= |losses| && |losses| < |data|
    requires forall j :: 0 <= j < |losses| ==> losses[j] == LossAt(data, j)
    ensures Sum(losses[lo..hi]) == WindowLoss(data, lo, hi)
    decreases hi - lo
  {
    if hi > lo {
      SumOfLossSlice(data, losses, lo, hi - 1);
      assert losses[lo..hi][..hi - lo - 1] == losses[lo..hi - 1];
    }
  }

  /** The averages the loop takes over slices of its own `gains` and `losses`
      arrays are those of the specification, and give its RSI value. */
  lemma RsiWindowAverages(data: seq<real>, period: nat, i: nat, gains: seq<real>, losses: seq<real>)
    requires period >= 1 && period <= i < |data| && |gains| == |losses| == i
    requires forall j :: 0 <= j < i ==> gains[j] == GainAt(data, j) && losses[j] == LossAt(data, j)
    ensures var avgGain, avgLoss := Sum(gains[i - period..i]) / period as real, Sum(losses[i - period..i]) / period as real;
            && avgGain >= 0.0 && avgLoss >= 0.0
            && (avgLoss != 0.0 ==> avgGain / avgLoss >= 0.0)
            && RsiAt(data, period, i) == RsiFromAverages(avgGain, avgLoss)
  {
    SumOfGainSlice(data, gains, i - period, i);
    SumOfLossSlice(data, losses, i - period, i);
    var avgGain, avgLoss := Sum(gains[i - period..i]) / period as real, Sum(losses[i - period..i]) / period as real;
    QuotientNonNegative(Sum(gains[i - period..i]), period as real);
    QuotientNonNegative(Sum(losses[i - period..i]), period as real);
    if avgLoss != 0.0 {
      QuotientNonNegative(avgGain, avgLoss);
    }
  }

  /** `calculateRSI`: the loop pushes one gain, one loss and one RSI value per
      price change, averaging `gains.slice(i - period, i)`. */
  method CalculateRSI(data: seq<real>, period: nat) returns (rsiArray: seq<real>)
    requires period >= 1
    ensures rsiArray == RsiSeries(data, period)
  {
    var gains: seq<real> := [];
    var losses: seq<real> := [];
    rsiArray := [];
    var i := 1;
    while i < |data|
      invariant 1 <= i
      invariant i == 1 || i <= |data|
      invariant |gains| == |losses| == i - 1
      invariant forall j :: 0 <= j < i - 1 ==> gains[j] == GainAt(data, j) && losses[j] == LossAt(data, j)
      invariant |data| == 0 ==> rsiArray == []
      invariant 0 < |data| ==> rsiArray == RsiSeries(data[..i], period)
    {
      var diff := data[i] - data[i - 1];
      gains := gains + [if diff > 0.0 then diff else 0.0];
      losses := losses + [if diff < 0.0 then -diff else 0.0];
      var rsi;
      if i >= period {
        var avgGain := Sum(gains[i - period..i]) / period as real;
        var avgLoss := Sum(losses[i - period..i]) / period as real;
        RsiWindowAverages(data, period, i, gains, losses);
        var rs := if avgLoss == 0.0 then 100.0 else avgGain / avgLoss;
        rsi := 100.0 - 100.0 / (1.0 + rs);
      } else {
        rsi := 50.0;
      }
      assert rsi == RsiAt(data, period, i);
      RsiSeriesStep(data, period, i);
      rsiArray := rsiArray + [rsi];
      i := i + 1;
    }
    assert 0 < |data| ==> data[..i] == data;
  }

  /** The first `period - 1` values are the neutral 50. */
  lemma RsiWarmUp(data: seq<real>, period: nat, j: nat)
    requires period >= 1 && j < Changes(|data|) && j + 1 < period
    ensures RsiSeries(data, period)[j] == 50.0
  {
    RsiSeriesAt(data, period, j);
  }

  /** Every RSI value lies in [0, 100): never 100, not even without losses. */
  lemma RsiBounded(data: seq<real>, period: nat, j: nat)
    requires period >= 1 && j < Changes(|data|)
    ensures 0.0 <= RsiSeries(data, period)[j] < 100.0
  {
    RsiSeriesAt(data, period, j);
  }

  /** A stretch of prices that never falls has no losses. */
  lemma {:induction false} NoFallNoLoss(data: seq<real>, lo: nat, hi: nat)
    requires lo <= hi < |data|
    requires forall m :: lo <= m < hi ==> data[m + 1] >= data[m]
    ensures WindowLoss(data, lo, hi) == 0.0
    decreases hi - lo
  {
    if hi > lo {
      NoFallNoLoss(data, lo, hi - 1);
    }
  }

  /** Once warmed up, a window without a single fall yields `100 - 100/101`
      (about 99.01) rather than 100. */
  lemma RsiWithoutLosses(data: seq<real>, period: nat, j: nat)
    requires period >= 1 && period <= j + 1 < |data|
    requires forall m :: j + 1 - period <= m <= j ==> data[m + 1] >= data[m]
    ensures RsiSeries(data, period)[j] == 100.0 - 100.0 / 101.0
  {
    NoFallNoLoss(data, j + 1 - period, j + 1);
    RsiSeriesAt(data, period, j);
  }

  /** With at least one fall in the window, the RSI is the share of the
      window's total gain in its total movement: `100 * G / (G + L)`. */
  lemma RsiIsGainShare(data: seq<real>, period: nat, j: nat)
    requires period >= 1 && period <= j + 1 < |data|
    requires WindowLoss(data, j + 1 - period, j + 1) > 0.0
    ensures var g, l := WindowGain(data, j + 1 - period, j + 1), WindowLoss(data, j + 1 - period, j + 1);
            g + l > 0.0 && RsiSeries(data, period)[j] == 100.0 * g / (g + l)
  {
    RsiSeriesAt(data, period, j);
    var g, l := WindowGain(data, j + 1 - period, j + 1), WindowLoss(data, j + 1 - period, j + 1);
    GainShareAlgebra(g, l, period as real);
  }

  lemma GainShareAlgebra(g: real, l: real, p: real)
    requires g >= 0.0 && l > 0.0 && p > 0.0
    ensures RsiFromAverages(g / p, l / p) == 100.0 * g / (g + l)
  {
    var a, b := g / p, l / p;
    assert a * p == g && b * p == l;
    QuotientNonNegative(g, p);
    var rs := a / b;
    assert rs * b == a;
    assert rs * l == g by {
      calc {
        rs * l;
        == rs * (b * p);
        == (rs * b) * p;
        == a * p;
      }
    }
    var d := 1.0 + rs;
    assert d * l == l + g;
    var t := 100.0 / d;
    assert t * d == 100.0;
    assert t * (l + g) == 100.0 * l by {
      calc {
        t * (l + g);
        == t * (d * l);
        == (t * d) * l;
      }
    }
    var u := 100.0 * g / (g + l);
    assert u * (g + l) == 100.0 * g;
    assert (100.0 - t) * (g + l) == 100.0 * g;
    CancelFactor(100.0 - t, u, g + l);
  }

  lemma CancelFactor(x: real, y: real, z: real)
    requires z != 0.0 && x * z == y * z
    ensures x == y
  {
    assert (x - y) * z == 0.0;
  }

  // --------------------------------------------------------------- MACD

  datatype MacdSeries = MacdSeries(macdLine: seq<real>, signalLine: seq<real>, histogram: seq<real>)

  /** `calculateMACD`: the gap between the short and the long EMA, the EMA
      of that gap as signal line, and their difference as histogram. */
  function CalculateMACD(data: seq<real>, shortPeriod: nat, longPeriod: nat, signalPeriod: nat): (m: MacdSeries)
    ensures |m.macdLine| == |data| && |m.signalLine| == |data| && |m.histogram| == |data|
    ensures forall i :: 0 <= i < |data| ==> m.histogram[i] == m.macdLine[i] - m.signalLine[i]
  {
    var shortEma := EmaSeries(data, shortPeriod);
    var longEma := EmaSeries(data, longPeriod);
    var macdLine := seq(|data|, i requires 0 <= i < |data| => shortEma[i] - longEma[i]);
    var signalLine := EmaSeries(macdLine, signalPeriod);
    var histogram := seq(|data|, i requires 0 <= i < |data| => macdLine[i] - signalLine[i]);
    MacdSeries(macdLine, signalLine, histogram)
  }

  /** Both EMAs start at the first price, so all three lines start at 0. */
  lemma MacdStartsAtZero(data: seq<real>, shortPeriod: nat, longPeriod: nat, signalPeriod: nat)
    requires |data| > 0
    ensures var m := CalculateMACD(data, shortPeriod, longPeriod, signalPeriod);
            m.macdLine[0] == 0.0 && m.signalLine[0] == 0.0 && m.histogram[0] == 0.0
  {
    EmaStartsAtFirstPrice(data, shortPeriod);
    EmaStartsAtFirstPrice(data, longPeriod);
    var m := CalculateMACD(data, shortPeriod, longPeriod, signalPeriod);
    EmaStartsAtFirstPrice(m.macdLine, signalPeriod);
  }

  /** A flat price series has an all-zero MACD line, signal and histogram. */
  lemma MacdOfConstantIsZero(data: seq<real>, c: real, shortPeriod: nat, longPeriod: nat, signalPeriod: nat)
    requires forall i :: 0 <= i < |data| ==> data[i] == c
    ensures var m := CalculateMACD(data, shortPeriod, longPeriod, signalPeriod);
            forall i :: 0 <= i < |data| ==>
              m.macdLine[i] == 0.0 && m.signalLine[i] == 0.0 && m.histogram[i] == 0.0
  {
    EmaOfConstant(data, shortPeriod, c);
    EmaOfConstant(data, longPeriod, c);
    var m := CalculateMACD(data, shortPeriod, longPeriod, signalPeriod);
    EmaOfConstant(m.macdLine, signalPeriod, 0.0);
  }

  /** With both periods >= 1, the MACD value at `i` is at most the price
      range seen so far in size. */
  lemma MacdWithinRunningRange(data: seq<real>, shortPeriod: nat, longPeriod: nat, signalPeriod: nat, i: nat)
    requires shortPeriod >= 1 && longPeriod >= 1 && i < |data|
    ensures var m := CalculateMACD(data, shortPeriod, longPeriod, signalPeriod);
            var spread := MaxOf(data[..i + 1]) - MinOf(data[..i + 1]);
            -spread <= m.macdLine[i] <= spread
  {
    EmaWithinRunningRange(data, shortPeriod, i);
    EmaWithinRunningRange(data, longPeriod, i);
  }
}
