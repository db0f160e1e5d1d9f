/** The streaming manager: a bounded buffer of closes per symbol, fed first
    from the REST klines and then from kline events; indicator snapshots for
    closed klines; symbols batched into combined-stream connections; and the
    reconnect backoff of each batch. */
module BinanceWs {
  import opened Wrappers
  import opened Numeric
  import opened Text
  import Indicators
  import Binance

  const FuturesBase: string := "wss://fstream.binance.com/stream?streams="
  const BatchSize: nat := 60
  const KlinesNeeded: nat := 500
  const InitialBackoff: int := 1000
  const MaxBackoff: int := 60000

  /** A kline event after parsing; `isFinal` says the kline has closed. */
  datatype KlineObj = KlineObj(openTime: real, open: real, high: real, low: real,
                               close: real, volume: real, closeTime: real, isFinal: bool)

  /** The `candle` payload; `None` is the `null` an empty series would give. */
  datatype Candle = Candle(
    symbol: string,
    open: real, high: real, low: real, close: real, volume: real,
    ema12: Option<real>, ema26: Option<real>, ema50: Option<real>, ema100: Option<real>, ema200: Option<real>,
    macd: Option<real>, macdSignal: Option<real>, macdHist: Option<real>,
    rsi14: Option<real>,
    ts: int)

  // ---------------------------------------------------------------------------
  // The close buffer

  /** Append a close and drop the oldest entries beyond `cap`. */
  function PushClose(buf: seq<real>, close: real, cap: nat): (r: seq<real>)
    ensures |r| == Min(|buf| + 1, cap)
    ensures forall i :: 0 <= i < |r| ==> r[i] == (buf + [close])[|buf| + 1 - |r| + i]
    ensures cap > 0 ==> r[|r| - 1] == close
  {
    var cur := buf + [close];
    if |cur| > cap then cur[|cur| - cap..] else cur
  }

  /** The newest `n` entries of `s`. */
  function Latest(s: seq<real>, n: nat): seq<real>
  {
    if |s| <= n then s else s[|s| - n..]
  }

  /** The buffer after a run of kline events, one push per close. */
  function PushAll(buf: seq<real>, closes: seq<real>, cap: nat): seq<real>
    decreases |closes|
  {
    if |closes| == 0 then buf else PushAll(PushClose(buf, closes[0], cap), closes[1..], cap)
  }

  /** However many kline events arrive, the buffer holds exactly the newest
      `cap` closes of everything seen, oldest first. */
  lemma {:induction false} PushAllKeepsLatest(buf: seq<real>, closes: seq<real>, cap: nat)
    requires |closes| > 0 || |buf| <= cap
    ensures PushAll(buf, closes, cap) == Latest(buf + closes, cap)
    decreases |closes|
  {
    if |closes| == 0 {
      assert buf + closes == buf;
    } else {
      var first := PushClose(buf, closes[0], cap);
      PushCloseIsLatest(buf, closes[0], cap);
      PushAllKeepsLatest(first, closes[1..], cap);
      LatestOfConcat(buf + [closes[0]], closes[1..], cap);
      assert buf + [closes[0]] + closes[1..] == buf + closes;
    }
  }

  lemma PushCloseIsLatest(buf: seq<real>, close: real, cap: nat)
    ensures PushClose(buf, close, cap) == Latest(buf + [close], cap)
  {
  }

  lemma LatestOfConcat(s: seq<real>, t: seq<real>, n: nat)
    ensures Latest(Latest(s, n) + t, n) == Latest(s + t, n)
  {
    var a, b := Latest(Latest(s, n) + t, n), Latest(s + t, n);
    var l := Latest(s, n);
    assert |a| == |b|;
    forall i | 0 <= i < |a| ensures a[i] == b[i] {
      assert a[i] == (l + t)[|l| + |t| - |a| + i];
      assert b[i] == (s + t)[|s| + |t| - |b| + i];
    }
  }

  /** The closes of a klines reply: the close column, or nothing when the
      request failed. */
  function InitialCloses(reply: Binance.KlinesReply): (r: seq<real>)
    ensures reply.KlinesFailed? ==> r == []
    ensures reply.KlineRows? ==> |r| == |reply.rows|
    ensures reply.KlineRows? ==> forall i :: 0 <= i < |r| ==> r[i] == reply.rows[i][4]
  {
    var klines := Binance.GetKlines(reply);
    seq(|klines|, i requires 0 <= i < |klines| => klines[i].close)
  }

  // ---------------------------------------------------------------------------
  // Indicator snapshot

  /** The last element of a series, or `None` when it is empty. */
  function LastOf(s: seq<real>): (r: Option<real>)
    ensures r.Some? <==> |s| > 0
  {
    if |s| == 0 then None else Some(s[|s| - 1])
  }

  /** What a kline event emits given the buffer after the push: nothing for
      a kline still open or a buffer of fewer than two closes, otherwise the
      kline's prices with the last value of each indicator series. */
  function CandleFor(symbol: string, k: KlineObj, closes: seq<real>, now: int): (c: Option<Candle>)
    ensures c.Some? <==> k.isFinal && |closes| >= 2
    ensures c.Some? ==> c.value.symbol == symbol && c.value.ts == now
    ensures c.Some? ==> c.value.open == k.open && c.value.high == k.high && c.value.low == k.low
                        && c.value.close == k.close && c.value.volume == k.volume
    ensures c.Some? ==> c.value.ema12.Some? && c.value.ema26.Some? && c.value.ema50.Some?
                        && c.value.ema100.Some? && c.value.ema200.Some? && c.value.macd.Some?
                        && c.value.macdSignal.Some? && c.value.macdHist.Some? && c.value.rsi14.Some?
    ensures c.Some? ==> MinOf(closes) <= c.value.ema12.value <= MaxOf(closes)
                        && MinOf(closes) <= c.value.ema26.value <= MaxOf(closes)
                        && MinOf(closes) <= c.value.ema50.value <= MaxOf(closes)
                        && MinOf(closes) <= c.value.ema100.value <= MaxOf(closes)
                        && MinOf(closes) <= c.value.ema200.value <= MaxOf(closes)
    ensures c.Some? ==> c.value.macdHist.value == c.value.macd.value - c.value.macdSignal.value
    ensures c.Some? ==> 0.0 <= c.value.rsi14.value < 100.0
  {
    if !k.isFinal || |closes| < 2 then None
    else
      var last := |closes| - 1;
      var m := Indicators.CalculateMACD(closes, 12, 26, 9);
      var rsi := Indicators.RsiSeries(closes, 14);
      assert closes[..last + 1] == closes;
      Indicators.EmaWithinRunningRange(closes, 12, last);
      Indicators.EmaWithinRunningRange(closes, 26, last);
      Indicators.EmaWithinRunningRange(closes, 50, last);
      Indicators.EmaWithinRunningRange(closes, 100, last);
      Indicators.EmaWithinRunningRange(closes, 200, last);
      Indicators.RsiBounded(closes, 14, |rsi| - 1);
      Some(Candle(symbol, k.open, k.high, k.low, k.close, k.volume,
                  LastOf(Indicators.EmaSeries(closes, 12)), LastOf(Indicators.EmaSeries(closes, 26)),
                  LastOf(Indicators.EmaSeries(closes, 50)), LastOf(Indicators.EmaSeries(closes, 100)),
                  LastOf(Indicators.EmaSeries(closes, 200)),
                  LastOf(m.macdLine), LastOf(m.signalLine), LastOf(m.histogram),
                  LastOf(rsi),
                  now))
  }

  // ---------------------------------------------------------------------------
  // Batches of streams

  /** The stream name of one symbol: lower-cased symbol, `@kline_`, timeframe. */
  function StreamName(symbol: string, timeframe: string): string
  {
    ToLower(symbol) + "@kline_" + timeframe
  }

  /** The combined-stream URL of a batch. */
  function StreamUrl(streams: seq<string>): string
  {
    FuturesBase + Join(streams, '/')
  }

  function NumBatches(n: nat): nat
  {
    (n + BatchSize - 1) / BatchSize
  }

  /** The symbols of batch `j`: positions `60j` up to `60j + 59`, as far as
      they exist. */
  function Chunk(symbols: seq<string>, j: nat): (c: seq<string>)
    requires j < NumBatches(|symbols|)
    ensures 1 <= |c| <= BatchSize
    ensures forall p :: 0 <= p < |c| ==> j * BatchSize + p < |symbols| && c[p] == symbols[j * BatchSize + p]
  {
    symbols[j * BatchSize .. Min(j * BatchSize + BatchSize, |symbols|)]
  }

  /** The stream names of batch `j`. */
  function BatchStreams(symbols: seq<string>, timeframe: string, j: nat): (r: seq<string>)
    requires j < NumBatches(|symbols|)
    ensures 1 <= |r| <= BatchSize
  {
    var c := Chunk(symbols, j);
    seq(|c|, p requires 0 <= p < |c| => StreamName(c[p], timeframe))
  }

  /** Symbol `p` is in batch `p / 60` at position `p % 60`, and in no
      other batch. */
  lemma SymbolInExactlyOneBatch(symbols: seq<string>, p: nat, j: nat)
    requires p < |symbols| && j < NumBatches(|symbols|)
    ensures p / BatchSize < NumBatches(|symbols|)
    ensures j * BatchSize <= p < j * BatchSize + |Chunk(symbols, j)| <==> j == p / BatchSize
    ensures j == p / BatchSize ==> Chunk(symbols, j)[p % BatchSize] == symbols[p]
  {
  }

  function Flatten(xss: seq<seq<string>>): seq<string>
  {
    if |xss| == 0 then [] else Flatten(xss[..|xss| - 1]) + xss[|xss| - 1]
  }

  function Batches(symbols: seq<string>): (r: seq<seq<string>>)
    ensures |r| == NumBatches(|symbols|)
  {
    seq(NumBatches(|symbols|), j requires 0 <= j < NumBatches(|symbols|) => Chunk(symbols, j))
  }

  lemma {:induction false} FlattenBatchesPrefix(symbols: seq<string>, m: nat)
    requires m <= NumBatches(|symbols|)
    ensures Flatten(Batches(symbols)[..m]) == symbols[..Min(m * BatchSize, |symbols|)]
  {
    if m > 0 {
      var bs := Batches(symbols);
      FlattenBatchesPrefix(symbols, m - 1);
      assert bs[..m][..m - 1] == bs[..m - 1];
      assert (m - 1) * BatchSize < |symbols|;
      assert symbols[..Min(m * BatchSize, |symbols|)]
          == symbols[..(m - 1) * BatchSize] + symbols[(m - 1) * BatchSize .. Min(m * BatchSize, |symbols|)];
    }
  }

  /** The batches, read in order, are the symbols in order: every symbol is
      connected exactly once. */
  lemma BatchesPartitionSymbols(symbols: seq<string>)
    ensures Flatten(Batches(symbols)) == symbols
  {
    var bs := Batches(symbols);
    FlattenBatchesPrefix(symbols, |bs|);
    assert bs[..|bs|] == bs;
  }

  lemma {:induction false} LowerKeepsOutSlash(s: string)
    requires '/' !in s
    ensures '/' !in ToLower(s)
  {
    var r := ToLower(s);
    forall i | 0 <= i < |r| ensures r[i] != '/' {
      assert r[i] == LowerChar(s[i]);
    }
  }

  /** When neither the symbols nor the timeframe contain `/`, the URL of a
      batch names exactly its streams: the base, then the stream names that
      splitting on `/` recovers. */
  lemma BatchUrlNamesItsStreams(symbols: seq<string>, timeframe: string, j: nat)
    requires j < NumBatches(|symbols|)
    requires forall i :: 0 <= i < |symbols| ==> '/' !in symbols[i]
    requires '/' !in timeframe
    ensures var url := StreamUrl(BatchStreams(symbols, timeframe, j));
            url[..|FuturesBase|] == FuturesBase
            && Split(url[|FuturesBase|..], '/') == BatchStreams(symbols, timeframe, j)
  {
    var streams := BatchStreams(symbols, timeframe, j);
    var c := Chunk(symbols, j);
    forall p | 0 <= p < |streams| ensures '/' !in streams[p] {
      LowerKeepsOutSlash(c[p]);
      assert streams[p] == ToLower(c[p]) + "@kline_" + timeframe;
    }
    SplitJoin(streams, '/');
    var url := StreamUrl(streams);
    assert url[|FuturesBase|..] == Join(streams, '/');
  }

  // ---------------------------------------------------------------------------
  // Backoff

  /** The delay before reconnecting a batch whose stored backoff is `prev`
      (1000 when none is stored): double it, up to 60000. */
  function NextBackoff(prev: Option<int>): (next: int)
    ensures next <= MaxBackoff
    ensures next == MaxBackoff || next == 2 * prev.GetOr(InitialBackoff)
    ensures 2 * prev.GetOr(InitialBackoff) <= MaxBackoff ==> next == 2 * prev.GetOr(InitialBackoff)
    ensures prev.GetOr(InitialBackoff) >= InitialBackoff ==> next >= 2 * InitialBackoff
  {
    Min(prev.GetOr(InitialBackoff) * 2, MaxBackoff)
  }

  function Pow2(n: nat): nat
  {
    if n == 0 then 1 else 2 * Pow2(n - 1)
  }

  /** The backoff after `n` reconnects with no reset in between. */
  function BackoffAfter(n: nat): int
  {
    if n == 0 then InitialBackoff else NextBackoff(Some(BackoffAfter(n - 1)))
  }

  /** The arithmetic of repeated reconnects on its own: were the backoff
      never reset, it would double from 1000 and stop at 60000. */
  lemma {:induction false} BackoffIsCappedDoubling(n: nat)
    ensures BackoffAfter(n) == Min(InitialBackoff * Pow2(n), MaxBackoff)
  {
    if n > 0 {
      BackoffIsCappedDoubling(n - 1);
    }
  }

  // ---------------------------------------------------------------------------
  // The manager

  /** The cache the initial fetch builds: every symbol mapped to the closes
      of its reply. */
  function InitialCache(symbols: seq<string>, fetch: string -> Binance.KlinesReply): map<string, seq<real>>
  {
    map s | s in symbols :: InitialCloses(fetch(s))
  }

  /** The sockets `init` opens for batches `0 .. m - 1`: each batch
      connected to its URL. */
  function BatchSockets(symbols: seq<string>, timeframe: string, m: nat): map<nat, string>
    requires m <= NumBatches(|symbols|)
  {
    if m == 0 then map[]
    else BatchSockets(symbols, timeframe, m - 1)[m - 1 := StreamUrl(BatchStreams(symbols, timeframe, m - 1))]
  }

  /** The backoffs `init` sets for batches `0 .. m - 1`. */
  function BatchBackoffs(m: nat): map<nat, int>
  {
    if m == 0 then map[] else BatchBackoffs(m - 1)[m - 1 := InitialBackoff]
  }

  /** Batch `j` is connected, to its own URL, exactly when `j < m`. */
  lemma {:induction false} BatchSocketsTable(symbols: seq<string>, timeframe: string, m: nat, j: nat)
    requires m <= NumBatches(|symbols|)
    ensures j in BatchSockets(symbols, timeframe, m) <==> j < m
    ensures j < m ==> BatchSockets(symbols, timeframe, m)[j] == StreamUrl(BatchStreams(symbols, timeframe, j))
  {
    if m > 0 {
      BatchSocketsTable(symbols, timeframe, m - 1, j);
    }
  }

  /** Batch `j` has a backoff of 1000 exactly when `j < m`. */
  lemma {:induction false} BatchBackoffsTable(m: nat, j: nat)
    ensures j in BatchBackoffs(m) <==> j < m
    ensures j < m ==> BatchBackoffs(m)[j] == InitialBackoff
  {
    if m > 0 {
      BatchBackoffsTable(m - 1, j);
    }
  }

  lemma CacheStep(base: map<string, seq<real>>, symbols: seq<string>, fetch: string -> Binance.KlinesReply, n: nat)
    requires n < |symbols|
    ensures (base + InitialCache(symbols[..n], fetch))[symbols[n] := InitialCloses(fetch(symbols[n]))]
         == base + InitialCache(symbols[..n + 1], fetch)
  {
    InitialCacheStep(symbols, fetch, n);
    MergeThenUpdate(base, InitialCache(symbols[..n], fetch), symbols[n], InitialCloses(fetch(symbols[n])));
  }

  lemma InitialCacheStep(symbols: seq<string>, fetch: string -> Binance.KlinesReply, n: nat)
    requires n < |symbols|
    ensures InitialCache(symbols[..n + 1], fetch)
         == InitialCache(symbols[..n], fetch)[symbols[n] := InitialCloses(fetch(symbols[n]))]
  {
    assert symbols[..n + 1] == symbols[..n] + [symbols[n]];
  }

  /** One pass of the connecting loop of `init` adds batch `b`. */
  lemma ConnectStep(sockets: map<nat, string>, backoffs: map<nat, int>, symbols: seq<string>, timeframe: string, b: nat)
    requires b * BatchSize < |symbols|
    ensures b < NumBatches(|symbols|)
    ensures (b + 1) * BatchSize >= |symbols| ==> b + 1 == NumBatches(|symbols|)
    ensures (sockets + BatchSockets(symbols, timeframe, b))[b := StreamUrl(BatchStreams(symbols, timeframe, b))]
         == sockets + BatchSockets(symbols, timeframe, b + 1)
    ensures (backoffs + BatchBackoffs(b))[b := InitialBackoff] == backoffs + BatchBackoffs(b + 1)
  {
    var url := StreamUrl(BatchStreams(symbols, timeframe, b));
    BatchSocketsStep(symbols, timeframe, b);
    MergeThenUpdate(sockets, BatchSockets(symbols, timeframe, b), b, url);
    MergeThenUpdate(backoffs, BatchBackoffs(b), b, InitialBackoff);
  }

  lemma BatchArithmetic(i: nat, b: nat)
    requires i == b * BatchSize
    ensures i / BatchSize == b && i + BatchSize == (b + 1) * BatchSize
  {
  }

  lemma BatchSocketsStep(symbols: seq<string>, timeframe: string, b: nat)
    requires b < NumBatches(|symbols|)
    ensures BatchSockets(symbols, timeframe, b + 1)
         == BatchSockets(symbols, timeframe, b)[b := StreamUrl(BatchStreams(symbols, timeframe, b))]
  {
  }

  lemma MergeThenUpdate<K, V>(a: map<K, V>, b: map<K, V>, k: K, v: V)
    ensures (a + b)[k := v] == a + b[k := v]
  {
  }

  lemma {:induction false} BackoffsStayInRange(backoffs: map<nat, int>, m: nat)
    requires BackoffsInRange(backoffs)
    ensures BackoffsInRange(backoffs + BatchBackoffs(m))
  {
    if m > 0 {
      BackoffsStayInRange(backoffs, m - 1);
      MergeThenUpdate(backoffs, BatchBackoffs(m - 1), m - 1, InitialBackoff);
    }
  }

  predicate BackoffsInRange(backoffs: map<nat, int>)
  {
    forall b :: b in backoffs ==> InitialBackoff <= backoffs[b] <= MaxBackoff
  }

  class WsManager {
    const symbols: seq<string>
    const timeframe: string
    /** Closes per symbol, oldest first. */
    var cache: map<string, seq<real>>
    /** Open connection per batch index, identified by its URL. */
    var sockets: map<nat, string>
    /** Current reconnect backoff per batch index, in milliseconds. */
    var backoffs: map<nat, int>

    constructor (symbols: seq<string>, timeframe: string)
      ensures this.symbols == symbols && this.timeframe == timeframe
      ensures cache == map[] && sockets == map[] && backoffs == map[]
    {
      this.symbols := symbols;
      this.timeframe := timeframe;
      cache := map[];
      sockets := map[];
      backoffs := map[];
    }

    /** Load the historical closes of one symbol; a failed request leaves it
        with an empty buffer. */
    method FetchInitial(symbol: string, reply: Binance.KlinesReply)
      modifies this`cache
      ensures cache == old(cache)[symbol := InitialCloses(reply)]
      ensures reply.KlinesFailed? ==> cache[symbol] == []
    {
      var klines := Binance.GetKlines(reply);
      var closes := seq(|klines|, i requires 0 <= i < |klines| => klines[i].close);
      cache := cache[symbol := closes];
    }

    /** `init`: fetch every symbol's history, then connect the symbols
        batch by batch. */
    method Init(fetch: string -> Binance.KlinesReply)
      modifies this`cache, this`sockets, this`backoffs
      ensures cache == old(cache) + InitialCache(symbols, fetch)
      ensures sockets == old(sockets) + BatchSockets(symbols, timeframe, NumBatches(|symbols|))
      ensures backoffs == old(backoffs) + BatchBackoffs(NumBatches(|symbols|))
    {
      Prefetch(fetch);
      ConnectAll();
    }

    /** The first phase of `init`: the initial fetch of every symbol. The
        fetches run concurrently; since each writes only its own symbol, the
        sequential order here gives the same cache. */
    method Prefetch(fetch: string -> Binance.KlinesReply)
      modifies this`cache
      ensures cache == old(cache) + InitialCache(symbols, fetch)
    {
      var n := 0;
      while n < |symbols|
        invariant n <= |symbols|
        invariant cache == old(cache) + InitialCache(symbols[..n], fetch)
      {
        CacheStep(old(cache), symbols, fetch, n);
        FetchInitial(symbols[n], fetch(symbols[n]));
        n := n + 1;
      }
      assert symbols[..n] == symbols;
    }

    /** The second phase of `init`: batch `i / 60` gets the stream names of
        the symbols from position `i` on, 60 at a time. */
    method ConnectAll()
      modifies this`sockets, this`backoffs
      ensures sockets == old(sockets) + BatchSockets(symbols, timeframe, NumBatches(|symbols|))
      ensures backoffs == old(backoffs) + BatchBackoffs(NumBatches(|symbols|))
    {
      var i := 0;
      ghost var b := 0;
      while i < |symbols|
        invariant i == b * BatchSize && b <= NumBatches(|symbols|)
        invariant i >= |symbols| ==> b == NumBatches(|symbols|)
        invariant sockets == old(sockets) + BatchSockets(symbols, timeframe, b)
        invariant backoffs == old(backoffs) + BatchBackoffs(b)
        decreases |symbols| - i
      {
        ConnectStep(old(sockets), old(backoffs), symbols, timeframe, b);
        BatchArithmetic(i, b);
        var streams := BatchStreams(symbols, timeframe, i / BatchSize);
        ConnectBatch(streams, i / BatchSize);
        i := i + BatchSize;
        b := b + 1;
      }
    }

    /** Open the connection of one batch and reset its backoff; nothing
        happens for an empty batch. */
    method ConnectBatch(streams: seq<string>, batchIndex: nat)
      modifies this`sockets, this`backoffs
      ensures |streams| == 0 ==> sockets == old(sockets) && backoffs == old(backoffs)
      ensures |streams| > 0 ==> sockets == old(sockets)[batchIndex := StreamUrl(streams)]
                                && backoffs == old(backoffs)[batchIndex := InitialBackoff]
      ensures BackoffsInRange(old(backoffs)) ==> BackoffsInRange(backoffs)
    {
      if |streams| == 0 {
        return;
      }
      var url := FuturesBase + Join(streams, '/');
      sockets := sockets[batchIndex := url];
      backoffs := backoffs[batchIndex := InitialBackoff];
    }

    /** The connection of a batch opened: its backoff starts over. */
    method OnOpen(batchIndex: nat)
      modifies this`backoffs
      ensures backoffs == old(backoffs)[batchIndex := InitialBackoff]
      ensures BackoffsInRange(old(backoffs)) ==> BackoffsInRange(backoffs)
    {
      backoffs := backoffs[batchIndex := InitialBackoff];
    }

    /** Double the backoff of a batch, up to 60000, and return it as the
        delay before the batch reconnects. */
    method ScheduleReconnect(batchIndex: nat) returns (delay: int)
      modifies this`backoffs
      ensures delay == NextBackoff(if batchIndex in old(backoffs) then Some(old(backoffs)[batchIndex]) else None)
      ensures backoffs == old(backoffs)[batchIndex := delay]
      ensures BackoffsInRange(old(backoffs)) ==> BackoffsInRange(backoffs)
    {
      var prev := if batchIndex in backoffs then backoffs[batchIndex] else InitialBackoff;
      delay := Min(prev * 2, MaxBackoff);
      backoffs := backoffs[batchIndex := delay];
    }

    /** The connection of a batch closed: forget it and schedule a reconnect. */
    method OnClose(batchIndex: nat) returns (delay: int)
      modifies this`sockets, this`backoffs
      ensures sockets == old(sockets) - {batchIndex}
      ensures delay == NextBackoff(if batchIndex in old(backoffs) then Some(old(backoffs)[batchIndex]) else None)
      ensures backoffs == old(backoffs)[batchIndex := delay]
      ensures BackoffsInRange(old(backoffs)) ==> BackoffsInRange(backoffs)
    {
      sockets := sockets - {batchIndex};
      delay := ScheduleReconnect(batchIndex);
    }

    /** Since every connect resets the backoff to 1000, the delay after any
        close of a connected batch is 2000, however often it has failed. */
    method ConnectThenClose(streams: seq<string>, batchIndex: nat, wasOpened: bool) returns (delay: int)
      requires |streams| > 0
      modifies this`sockets, this`backoffs
      ensures delay == 2 * InitialBackoff
      ensures sockets == old(sockets) - {batchIndex}
      ensures backoffs == old(backoffs)[batchIndex := delay]
    {
      ConnectBatch(streams, batchIndex);
      if wasOpened {
        OnOpen(batchIndex);
      }
      delay := OnClose(batchIndex);
    }

    /** A kline event: push its close into the symbol's buffer, then emit a
        candle if the kline has closed and the buffer has two closes. */
    method HandleKline(symbol: string, k: KlineObj, now: int) returns (emitted: Option<Candle>)
      modifies this`cache
      ensures var before := if symbol in old(cache) then old(cache)[symbol] else [];
              cache == old(cache)[symbol := PushClose(before, k.close, KlinesNeeded)]
      ensures emitted == CandleFor(symbol, k, cache[symbol], now)
    {
      var cur := if symbol in cache then cache[symbol] else [];
      cur := cur + [k.close];
      if |cur| > KlinesNeeded {
        cur := cur[|cur| - KlinesNeeded..];
      }
      cache := cache[symbol := cur];

      if !k.isFinal {
        return None;
      }
      var closes := cache[symbol];
      if |closes| < 2 {
        return None;
      }
      var ema12 := Indicators.CalculateEMA(closes, 12);
      var ema26 := Indicators.CalculateEMA(closes, 26);
      var ema50 := Indicators.CalculateEMA(closes, 50);
      var ema100 := Indicators.CalculateEMA(closes, 100);
      var ema200 := Indicators.CalculateEMA(closes, 200);
      var m := Indicators.CalculateMACD(closes, 12, 26, 9);
      var rsi14 := Indicators.CalculateRSI(closes, 14);
      emitted := Some(Candle(symbol, k.open, k.high, k.low, k.close, k.volume,
                             LastOf(ema12), LastOf(ema26), LastOf(ema50), LastOf(ema100), LastOf(ema200),
                             LastOf(m.macdLine), LastOf(m.signalLine), LastOf(m.histogram),
                             LastOf(rsi14), now));
    }
  }
}
