/** How the two indicator libraries relate: lib/ta.ts computes, for the last
    price, what lib/indicators.ts computes for every price, except for the
    rounding and for an RSI window without losses. */
module Agreement {
  import opened Wrappers
  import opened Numeric
  import Indicators
  import Ta

  /** The last EMA of the series is the fold of lib/ta.ts. */
  lemma {:induction false} EmaFoldIsLastOfSeries(data: seq<real>, period: nat)
    requires |data| > 0
    ensures Indicators.EmaSeries(data, period)[|data| - 1] == Ta.EmaFold(data, Smoothing(period))
    decreases |data|
  {
    if |data| >= 2 {
      EmaFoldIsLastOfSeries(data[..|data| - 1], period);
      Indicators.EmaUnfold(data, period);
    }
  }

  /** Given enough prices, the scalar EMA is the last EMA of the series,
      rounded to two decimals. */
  lemma EmaIsRoundedLastOfSeries(prices: seq<real>, period: nat)
    requires 0 < |prices| && period <= |prices|
    ensures Ta.Ema(prices, period) == Some(Round2(Indicators.EmaSeries(prices, period)[|prices| - 1]))
  {
    EmaFoldIsLastOfSeries(prices, period);
  }

  /** The loop totals of lib/ta.ts over indices `lo .. hi-1` are the window
      totals of lib/indicators.ts over changes `lo-1 .. hi-2`: a zero change
      adds nothing to either side, whichever side the code puts it on. */
  lemma {:induction false} TotalsAreWindowTotals(prices: seq<real>, lo: nat, hi: nat)
    requires 1 <= lo <= hi <= |prices|
    ensures Ta.Accumulate(prices, lo, hi)
         == Ta.Totals(Indicators.WindowGain(prices, lo - 1, hi - 1), Indicators.WindowLoss(prices, lo - 1, hi - 1))
    decreases hi - lo
  {
    if hi > lo {
      TotalsAreWindowTotals(prices, lo, hi - 1);
    }
  }

  lemma RatioOfMeans(g: real, l: real, p: real)
    requires l > 0.0 && p > 0.0
    ensures (g / p) / (l / p) == g / l
  {
    var a, b := g / p, l / p;
    assert a * p == g && b * p == l;
    var q := a / b;
    assert q * b == a;
    assert q * l == g by {
      calc {
        q * l;
        == q * (b * p);
        == (q * b) * p;
        == a * p;
      }
    }
  }

  /** With at least one fall among the last `period` changes, the scalar RSI
      is the last value of the RSI series, rounded. */
  lemma RsiIsRoundedLastOfSeries(prices: seq<real>, period: nat)
    requires 1 <= period && period + 1 <= |prices|
    requires Ta.LastTotals(prices, period).losses > 0.0
    ensures Ta.Rsi(prices, period) == Some(Round2(Indicators.RsiSeries(prices, period)[|prices| - 2]))
  {
    var n := |prices|;
    TotalsAreWindowTotals(prices, n - period, n);
    Indicators.RsiSeriesAt(prices, period, n - 2);
    var t := Ta.LastTotals(prices, period);
    RatioOfMeans(t.gains, t.losses, period as real);
  }

  /** Without a single fall among the last `period` changes the two libraries
      part ways: lib/ta.ts answers exactly 100, while lib/indicators.ts
      forces `rs` to 100 and answers `100 - 100/101`, about 99.01. */
  lemma RsiWithoutFallDiverges(prices: seq<real>, period: nat)
    requires 1 <= period && period + 1 <= |prices|
    requires forall i :: |prices| - period <= i < |prices| ==> prices[i] >= prices[i - 1]
    ensures Ta.Rsi(prices, period) == Some(100.0)
    ensures Indicators.RsiSeries(prices, period)[|prices| - 2] == 100.0 - 100.0 / 101.0
  {
    Ta.RsiWithoutFallIsHundred(prices, period);
    var n := |prices|;
    forall m | n - 1 - period <= m <= n - 2
      ensures prices[m + 1] >= prices[m]
    {
      assert n - period <= m + 1 < n;
    }
    Indicators.RsiWithoutLosses(prices, period, n - 2);
  }

  /** With at least 26 prices the scalar MACD differs from the last value of
      the MACD line by no more than the two EMA roundings; the rounding of
      their difference is exact. */
  lemma MacdNearLastOfLine(prices: seq<real>)
    requires |prices| >= 26
    ensures Ta.CalculateMACD(prices).Some?
    ensures var line := Indicators.CalculateMACD(prices, 12, 26, 9).macdLine;
            var gap := Ta.CalculateMACD(prices).value - line[|prices| - 1];
            -0.01 <= gap <= 0.01
  {
    EmaIsRoundedLastOfSeries(prices, 12);
    EmaIsRoundedLastOfSeries(prices, 26);
  }
}
