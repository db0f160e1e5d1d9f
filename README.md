# Crypto screener core: indicators, symbol discovery and the kline stream

This project models the computational core of a crypto-futures screener in
Dafny. The screener lists the USDT perpetual contracts of the Binance futures
exchange. It keeps a bounded buffer of closing prices for each symbol, fed
first by the REST klines endpoint and then by the combined kline WebSocket
stream. When a kline closes, it emits a candle with EMA, MACD and RSI values.

The modules follow the source files:

- `Indicators` (indicators.dfy) covers `lib/indicators.ts`. These are the
  series indicators:
  - An EMA seeded from the first price with `k = 2/(period+1)`.
  - An RSI over plain rolling means of gains and losses, with a neutral 50
    during warm-up.
  - The MACD line, signal line and histogram.

  `CalculateEMA` and `CalculateRSI` are loops proved against the recursive
  specification functions `EmaSeries` and `RsiSeries`.
- `Ta` (ta.dfy) covers `lib/ta.ts`. These are the scalar versions, which
  return NaN when there is too little data. NaN is modelled as `None`, and
  `toFixed(2)` followed by `parseFloat` is modelled as `Round2`.
- `Agreement` (agreement.dfy) relates the two indicator files:
  - The scalar EMA is the rounded last element of the series EMA.
  - The scalar RSI is the rounded last RSI value whenever the window has a loss.
  - With no loss in the window, the two files disagree: the scalar RSI gives
    100 while the series gives 100 − 100/101.
- `Binance` (binance.dfy) covers `lib/binance.ts`. `getFuturesSymbols` is a
  filter, then a map, then a sort. `getKlines` maps each row to a record by
  position. In both, the HTTP reply is an input datatype, and a failed
  request is one of its cases.
- `BinanceWs` (binance_ws.dfy) covers `lib/binanceWs.ts`. The class
  `WsManager` holds the `cache`, `sockets` and `backoffs` maps. Around it are
  pure functions for the close buffer, the candle payload, the batching of
  stream names and the reconnect backoff.
- `Numeric`, `Text` and `Wrappers` are shared helpers: sums, two-decimal
  rounding, the string sort order, ASCII lower-casing, join/split, and
  `Option`.

No indicator has an SMA seed, Wilder smoothing or an incremental seed/next
interface: every indicator is recomputed from the whole close array.

## Model

| member | source | states |
|---|---|---|
| Numeric.Smoothing | lib/indicators.ts:5 | the factor `2/(period+1)` lies in (0, 2], and in (0, 1] for every period ≥ 1 |
| Numeric.Round2 | lib/ta.ts:10 | `parseFloat(x.toFixed(2))` lies within half a cent of `x` |
| Numeric.Round2Fixes | lib/ta.ts:10 | rounding leaves a value that already has two decimals unchanged |
| Numeric.Round2Monotone | lib/ta.ts:10 | rounding preserves order |
| Indicators.EmaSeries | lib/indicators.ts:4-20 | the EMA series has one value per price, and empty input gives empty output |
| Indicators.CalculateEMA | lib/indicators.ts:4-20 | the `forEach` loop that pushes into `emaArray` and updates `prevEma` computes exactly `EmaSeries` |
| Indicators.EmaPrefix | lib/indicators.ts:9-17 | the first n EMA values depend only on the first n prices |
| Indicators.EmaStartsAtFirstPrice | lib/indicators.ts:10-11 | the first EMA value is the first price |
| Indicators.EmaRecurrence | lib/indicators.ts:12-16 | for i ≥ 1, `ema[i] = data[i]*k + ema[i-1]*(1-k)` with `k = 2/(period+1)` |
| Indicators.EmaBounded | lib/indicators.ts:13 | for period ≥ 1, prices within [lo, hi] give EMA values within [lo, hi] |
| Indicators.EmaWithinRunningRange | lib/indicators.ts:13 | for period ≥ 1, `ema[i]` lies between the minimum and maximum of `data[0..i]` |
| Indicators.EmaOfConstant | lib/indicators.ts:13-15 | a constant series has a constant EMA |
| Indicators.WindowGain | lib/indicators.ts:30 | the total of the gains `max(diff, 0)` over a window is non-negative |
| Indicators.WindowLoss | lib/indicators.ts:31 | the total of the losses `abs(min(diff, 0))` over a window is non-negative |
| Indicators.SumOfGainSlice | lib/indicators.ts:34 | the reduce over `gains.slice(lo, hi)` is the gain total of differences lo to hi − 1 |
| Indicators.SumOfLossSlice | lib/indicators.ts:35 | the reduce over `losses.slice(lo, hi)` is the loss total of differences lo to hi − 1 |
| Indicators.RsiFromAverages | lib/indicators.ts:37-38 | the RSI of non-negative averages lies in [0, 100); a zero average loss forces rs = 100 and so gives 100 − 100/101 |
| Indicators.RsiSeries | lib/indicators.ts:28-46 | the RSI series has `max(0, n − 1)` values, one per price difference |
| Indicators.RsiSeriesAt | lib/indicators.ts:28-46 | value j of the series is the RSI at loop index j + 1 |
| Indicators.CalculateRSI | lib/indicators.ts:23-47 | the loop that pushes into `gains`, `losses` and `rsiArray` computes exactly `RsiSeries` |
| Indicators.RsiWarmUp | lib/indicators.ts:41-43 | at loop index i < period the value is exactly 50 |
| Indicators.RsiBounded | lib/indicators.ts:37-38 | every RSI value lies in [0, 100) |
| Indicators.NoFallNoLoss | lib/indicators.ts:31 | a window with no falling step has loss total 0 |
| Indicators.RsiWithoutLosses | lib/indicators.ts:37-38 | when no price falls in the window, the value is 100 − 100/101, not 100 |
| Indicators.RsiIsGainShare | lib/indicators.ts:34-38 | past warm-up, with a loss in the window, the RSI is 100·G/(G+L) for the window totals G and L |
| Indicators.GainShareAlgebra | lib/indicators.ts:34-38 | `100 − 100/(1 + (G/p)/(L/p))` equals `100·G/(G+L)` |
| Indicators.CalculateMACD | lib/indicators.ts:50-59 | the MACD line, signal line and histogram each have one value per price, and `histogram[i] == macdLine[i] − signalLine[i]` |
| Indicators.MacdStartsAtZero | lib/indicators.ts:51-56 | the first MACD, signal and histogram values are 0 |
| Indicators.MacdOfConstantIsZero | lib/indicators.ts:51-56 | a constant series gives an all-zero MACD line, signal line and histogram |
| Indicators.MacdWithinRunningRange | lib/indicators.ts:51-54 | `macdLine[i]` is bounded in absolute value by the spread (max − min) of the prices up to i |
| Ta.Ema | lib/ta.ts:3-11 | NaN exactly when there are fewer prices than the period; otherwise the rounded EMA recurrence seeded at `prices[0]` |
| Ta.CalculateEMA | lib/ta.ts:3-11 | the loop that updates `ema` computes exactly `Ema` |
| Ta.EmaFoldOfConstant | lib/ta.ts:6-9 | the recurrence over a constant series stays at that constant |
| Ta.Accumulate | lib/ta.ts:16-20 | the gain and loss totals are both ≥ 0: a zero difference counts as a gain, and a negative one adds its absolute value to the losses |
| Ta.AccumulateOfSuffix | lib/ta.ts:16-17 | the totals over a range depend only on the prices from just before the range on |
| Ta.RsiReadsOnlyLastWindow | lib/ta.ts:16-17 | two price series that share their last period + 1 prices have the same RSI |
| Ta.Rsi | lib/ta.ts:13-24 | NaN exactly when there are fewer than period + 1 prices; otherwise a value in [0, 100] |
| Ta.CalculateRSI | lib/ta.ts:13-24 | the loop that updates `gains` and `losses` computes exactly `Rsi` |
| Ta.NoFallNoLosses | lib/ta.ts:18-19 | a range with no falling step has loss total 0 |
| Ta.RsiWithoutFallIsHundred | lib/ta.ts:21 | when no price falls in the last window, the result is exactly 100 |
| Ta.CalculateMACD | lib/ta.ts:26-31 | NaN exactly when there are fewer than 26 prices; otherwise both EMAs are defined and the result is exactly their difference, since the final rounding of two two-decimal values changes nothing |
| Ta.MacdOfConstantIsZero | lib/ta.ts:26-31 | a constant series of at least 26 prices has MACD 0 |
| Agreement.EmaFoldIsLastOfSeries | lib/ta.ts:5-9 | before rounding, the scalar EMA recurrence equals the last element of the series EMA in lib/indicators.ts |
| Agreement.EmaIsRoundedLastOfSeries | lib/ta.ts:3-11 | for every period ≤ n with n ≥ 1 (period 0 included), the scalar EMA is the rounded last element of the series EMA |
| Agreement.TotalsAreWindowTotals | lib/ta.ts:16-20 | the scalar gain and loss totals equal the series window totals of the same differences |
| Agreement.RsiIsRoundedLastOfSeries | lib/ta.ts:22-23 | when the last window has a loss, the scalar RSI is the rounded last value of the series RSI |
| Agreement.RsiWithoutFallDiverges | lib/ta.ts:21 | when no price falls in the last window, the scalar RSI is 100 but the series ends at 100 − 100/101 |
| Agreement.MacdNearLastOfLine | lib/ta.ts:26-31 | from 26 prices on, the scalar MACD is within 0.01 of the last value of the series MACD line: one half-cent rounding per EMA, none for their difference |
| Text.LeqTotal | lib/binance.ts:22 | any two strings are comparable in the default sort order |
| Text.LeqTransitive | lib/binance.ts:22 | the default sort order is transitive |
| Text.LeqAntisymmetric | lib/binance.ts:22 | strings that compare both ways are equal |
| Text.Insert | lib/binance.ts:22 | inserting into a sorted list keeps it sorted and adds exactly the one element |
| Text.Sort | lib/binance.ts:22 | the result is sorted ascending and is a permutation of the input |
| Text.SortedArrangementUnique | lib/binance.ts:22 | two sorted permutations of the same strings are equal, so any correct sort gives the same list |
| Text.ToLower | lib/binanceWs.ts:40 | the lower-cased symbol has the same length and no upper-case ASCII letter |
| Text.SplitJoin | lib/binanceWs.ts:58 | splitting the `/`-joined names on `/` gives the names back, when no name contains `/` |
| Binance.TradableSymbols | lib/binance.ts:19-21 | a name is kept exactly when some entry with that symbol has quote asset USDT, contract type PERPETUAL and status TRADING |
| Binance.AllTradableKeepsEverySymbol | lib/binance.ts:20-21 | when every entry qualifies, the filter drops nothing and keeps the listing order |
| Binance.GetFuturesSymbols | lib/binance.ts:14-28 | the result is sorted and is a permutation of the tradable symbols; an empty body, a missing symbol list or a failed request gives `[]` |
| Binance.GetFuturesSymbolsMembership | lib/binance.ts:18-22 | a name is returned exactly when the reply is a listing with a tradable entry of that name |
| Binance.GetFuturesSymbolsIsTheSortedOrder | lib/binance.ts:22 | any sorted arrangement of the tradable symbols is the result |
| Binance.KlineToRow | lib/binance.ts:34-42 | a kline record has the seven positional fields of its row |
| Binance.GetKlines | lib/binance.ts:30-48 | one record per row, in row order, whose fields are the row's positions 0–6; a failed request gives `[]` |
| BinanceWs.PushClose | lib/binanceWs.ts:123-126 | after the push the buffer ends with the new close and has `min(len + 1, 500)` entries: exactly the oldest overflow is dropped and the order is kept |
| BinanceWs.PushAllKeepsLatest | lib/binanceWs.ts:122-126 | after any run of kline events, the buffer is exactly the newest 500 closes of everything seen |
| BinanceWs.InitialCloses | lib/binanceWs.ts:47-48 | the closes of the fetched klines are column 4 of the rows, in order, and none when the fetch fails |
| BinanceWs.LastOf | lib/binanceWs.ts:134-143 | the last element of a series is present exactly when the series is non-empty |
| BinanceWs.CandleFor | lib/binanceWs.ts:128-164 | a candle is emitted exactly for a final kline with at least two closes. Its OHLCV fields are copied from the kline, every indicator field is present, all five EMAs (12, 26, 50, 100, 200) lie within the close range, the histogram is MACD − signal, and RSI lies in [0, 100) |
| BinanceWs.Chunk | lib/binanceWs.ts:39-40 | batch j holds between 1 and 60 symbols, namely positions 60j onward in order |
| BinanceWs.BatchStreams | lib/binanceWs.ts:40 | a batch has between 1 and 60 stream names |
| BinanceWs.SymbolInExactlyOneBatch | lib/binanceWs.ts:39-42 | symbol p lies in batch p / 60 at position p mod 60, and in no other batch |
| BinanceWs.Batches | lib/binanceWs.ts:39-42 | there are ⌈n / 60⌉ batches |
| BinanceWs.BatchesPartitionSymbols | lib/binanceWs.ts:39-42 | the batches, read in order, are the symbol list: every symbol is connected exactly once |
| BinanceWs.BatchUrlNamesItsStreams | lib/binanceWs.ts:58 | a batch URL is the combined-stream base followed by exactly its stream names |
| BinanceWs.NextBackoff | lib/binanceWs.ts:103-104 | the next delay is at most 60000; it is twice the stored backoff (1000 when none is stored) whenever that is at most 60000, and otherwise the cap |
| BinanceWs.BackoffIsCappedDoubling | lib/binanceWs.ts:103-105 | the arithmetic of `scheduleReconnect` on its own: applied n times with no reset in between, it gives `min(1000·2^n, 60000)`. The program never reaches this chain, because every reconnect goes through `connectBatch`, which resets the backoff to 1000 (see `ConnectThenClose`) |
| BinanceWs.BatchSocketsTable | lib/binanceWs.ts:39-42 | after `init`, batch j has a socket, on its own URL, exactly when j < ⌈n / 60⌉ |
| BinanceWs.BatchBackoffsTable | lib/binanceWs.ts:61 | after `init`, batch j has backoff 1000 exactly when j < ⌈n / 60⌉ |
| BinanceWs.BackoffsStayInRange | lib/binanceWs.ts:61 | the backoffs that `init` sets keep every backoff within [1000, 60000] |
| BinanceWs.WsManager.constructor | lib/binanceWs.ts:29-33 | the manager starts with the given symbols and timeframe and empty maps |
| BinanceWs.WsManager.FetchInitial | lib/binanceWs.ts:45-54 | the symbol's buffer becomes the fetched closes, and `[]` when the fetch fails |
| BinanceWs.WsManager.Init | lib/binanceWs.ts:35-43 | the cache maps every symbol to its fetched closes, and every batch has its socket and a backoff of 1000 |
| BinanceWs.WsManager.Prefetch | lib/binanceWs.ts:37 | each symbol's buffer is the closes of its fetch, and all other entries are unchanged |
| BinanceWs.WsManager.ConnectAll | lib/binanceWs.ts:39-42 | the loop with step 60 connects batch i / 60 to the stream names of symbols i to i + 59 |
| BinanceWs.WsManager.ConnectBatch | lib/binanceWs.ts:56-61 | an empty batch changes nothing; otherwise the batch's socket is on the base URL plus the `/`-joined names, and its backoff is reset to 1000 |
| BinanceWs.WsManager.OnOpen | lib/binanceWs.ts:65-66 | opening resets the batch's backoff to 1000 |
| BinanceWs.WsManager.ScheduleReconnect | lib/binanceWs.ts:102-107 | the backoff becomes `min(2·prev, 60000)`, with `prev` defaulting to 1000, and that value is the reconnect delay; backoffs stay within [1000, 60000] |
| BinanceWs.WsManager.OnClose | lib/binanceWs.ts:89-94 | closing forgets the socket and schedules a reconnect with the doubled backoff |
| BinanceWs.WsManager.ConnectThenClose | lib/binanceWs.ts:61-66 | since each connect resets the backoff, the delay after a close is 2000, whether or not the socket opened; afterwards only this batch has lost its socket, every other batch keeps its own, and only this batch's backoff changes |
| BinanceWs.WsManager.HandleKline | lib/binanceWs.ts:122-165 | the close is pushed into the symbol's buffer (a missing buffer counts as empty), and the emitted candle is `CandleFor` of the new buffer |

## Left out

- WebSocket transport is left out: sockets, the ping interval, the message
  and error handlers, logging, and `EventEmitter` emission. `HandleKline`
  returns the candle instead of emitting it, and `sockets` records each
  batch's URL instead of a socket object.
- `setTimeout` in `scheduleReconnect` is left out. `ScheduleReconnect`
  returns the delay; the reconnect that follows is a later `ConnectBatch`
  call by the caller.
- `parseKline` (lib/binanceWs.ts:109-120) and the JSON message decoding are
  left out. Kline events arrive as `KlineObj` values.
- The HTTP requests of lib/binance.ts (URLs, query strings, timeouts) and
  `parseFloat` of the decimal strings are left out. Replies arrive as
  datatypes, and kline rows arrive as numbers.
- Kline rows shorter than seven fields are not modelled; the source would
  read `undefined` there.
- Exchange-info entries with missing or non-string fields are not modelled.
  A `symbols` value that is not an array throws inside the `try`, so it is
  covered by the `NoSymbolList` and `RequestFailed` outcomes.
- Floating point is left out. Prices are reals and NaN is `None`.
  `Round2` rounds half away from zero on exact reals, so binary
  representation effects of `toFixed` are not modelled.
- `Date.now()` is the `now` parameter of `HandleKline`.
- The concurrent fetches of `init` (`Promise.all`) are run one after another
  in `Prefetch`. Each fetch writes only its own symbol, and its reply is a
  function of the symbol, so the order does not change the cache.
- `init` is split into `Prefetch` and `ConnectAll`, its two phases, and
  `Init` calls them in order.
- The `catch` of `fetchInitial` (lib/binanceWs.ts:50-53) runs only when
  `getKlines` rejects. That happens only when `encodeURIComponent`
  (lib/binance.ts:31, before the `try`) meets an unpaired surrogate in the
  symbol, and the outcome is the same empty buffer as a failed fetch. A
  Dafny string cannot hold such a symbol, so the model has no separate path
  for it.
- The `ema`, `macd` and `rsi` functions that lib/binanceWs.ts imports are
  not defined in lib/indicators.ts. They are bound to `calculateEMA`,
  `calculateMACD` and `calculateRSI`.
- The `.filter(v => v != null)` over each series is left out. A series of
  reals has no null entries, so the filter removes nothing.
- Text.Leq: compares characters by code point, while JavaScript's default
  sort compares UTF-16 code units. The two orders differ only when a
  character above U+FFFF meets one in U+E000 to U+FFFF, which exchange
  symbols never contain.
- Text.ToLower: does not model Unicode case mapping. It lower-cases ASCII
  letters only, which covers exchange symbols.
- Indicators.RsiSeries: requires period ≥ 1. With period 0 the source
  divides by zero and pushes NaN.
- Indicators.CalculateRSI: requires period ≥ 1, for the same reason.
- Ta.Ema: requires a positive period or a non-empty price list. With both
  zero the source calls `toFixed` on `undefined` and throws.
- Ta.CalculateEMA: has the same precondition as `Ta.Ema`.
- Periods are natural numbers. Negative and fractional periods are not
  modelled.
- Default arguments (timeframe `1m`, interval `1h`, limit 500, RSI period
  14) are left out. Callers pass the values.
