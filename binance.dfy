/** The REST helpers of the futures API: the list of tradable USDT
    perpetual symbols and the historical klines of one symbol. The HTTP
    reply is an input; a request that fails is one of its cases. */
module Binance {
  import opened Text

  /** One entry of the exchange-info listing, with the fields the filter reads. */
  datatype SymbolInfo = SymbolInfo(symbol: string, quoteAsset: string, contractType: string, status: string)

  /** What the exchange-info request gives back. */
  datatype ExchangeInfoReply =
    | RequestFailed                      // the request threw (network, timeout, HTTP error)
    | NoData                             // the body is empty
    | NoSymbolList                       // the body has no `symbols` list
    | Listing(symbols: seq<SymbolInfo>)

  predicate Tradable(s: SymbolInfo)
  {
    s.quoteAsset == "USDT" && s.contractType == "PERPETUAL" && s.status == "TRADING"
  }

  /** The symbols of the tradable entries, in listing order. */
  function TradableSymbols(entries: seq<SymbolInfo>): (r: seq<string>)
    ensures |r| <= |entries|
    ensures forall x :: x in r <==> exists e :: e in entries && Tradable(e) && e.symbol == x
  {
    if |entries| == 0 then []
    else
      var last := entries[|entries| - 1];
      var rest := TradableSymbols(entries[..|entries| - 1]);
      assert entries == entries[..|entries| - 1] + [last];
      rest + (if Tradable(last) then [last.symbol] else [])
  }

  /** A listing of only tradable entries keeps every symbol, in order. */
  lemma {:induction false} AllTradableKeepsEverySymbol(entries: seq<SymbolInfo>)
    requires forall i :: 0 <= i < |entries| ==> Tradable(entries[i])
    ensures TradableSymbols(entries) == seq(|entries|, i requires 0 <= i < |entries| => entries[i].symbol)
  {
    if |entries| > 0 {
      AllTradableKeepsEverySymbol(entries[..|entries| - 1]);
    }
  }

  /** `getFuturesSymbols`: the tradable symbols, sorted; every failure gives
      the empty list. */
  function GetFuturesSymbols(reply: ExchangeInfoReply): (r: seq<string>)
    ensures Sorted(r)
    ensures reply.Listing? ==> multiset(r) == multiset(TradableSymbols(reply.symbols))
    ensures !reply.Listing? ==> r == []
  {
    match reply
    case Listing(symbols) => Sort(TradableSymbols(symbols))
    case _ => []
  }

  /** A name is in the result exactly when the listing has a tradable entry
      with that name. */
  lemma GetFuturesSymbolsMembership(reply: ExchangeInfoReply, x: string)
    ensures x in GetFuturesSymbols(reply) <==>
            reply.Listing? && exists e :: e in reply.symbols && Tradable(e) && e.symbol == x
  {
    if reply.Listing? {
      var r := GetFuturesSymbols(reply);
      assert x in r <==> x in multiset(r);
      assert x in TradableSymbols(reply.symbols) <==> x in multiset(TradableSymbols(reply.symbols));
    }
  }

  /** Whatever sort the runtime uses, a sorted arrangement of the tradable
      symbols is the one `GetFuturesSymbols` returns. */
  lemma GetFuturesSymbolsIsTheSortedOrder(symbols: seq<SymbolInfo>, s: seq<string>)
    requires Sorted(s) && multiset(s) == multiset(TradableSymbols(symbols))
    ensures GetFuturesSymbols(Listing(symbols)) == s
  {
    SortedArrangementUnique(GetFuturesSymbols(Listing(symbols)), s);
  }

  /** One candle of the klines endpoint. */
  datatype Kline = Kline(openTime: real, open: real, high: real, low: real,
                         close: real, volume: real, closeTime: real)

  /** A row of the klines reply: open time, open, high, low, close, volume,
      close time, then fields the helper does not read. */
  type KlineRow = row: seq<real> | |row| >= 7 witness [0.0, 0.0, 0.0, 0.0, 0.0, 0.0, 0.0]

  datatype KlinesReply = KlinesFailed | KlineRows(rows: seq<KlineRow>)

  function RowToKline(row: KlineRow): Kline
  {
    Kline(row[0], row[1], row[2], row[3], row[4], row[5], row[6])
  }

  /** The row a kline is read from, up to the fields the helper ignores. */
  function KlineToRow(k: Kline): (row: KlineRow)
    ensures |row| == 7
  {
    [k.openTime, k.open, k.high, k.low, k.close, k.volume, k.closeTime]
  }

  /** `getKlines`: one kline per row, in the order of the rows, and the empty
      list when the request fails. */
  function GetKlines(reply: KlinesReply): (r: seq<Kline>)
    ensures reply.KlinesFailed? ==> r == []
    ensures reply.KlineRows? ==> |r| == |reply.rows|
    ensures reply.KlineRows? ==> forall i :: 0 <= i < |r| ==> KlineToRow(r[i]) == reply.rows[i][..7]
  {
    match reply
    case KlinesFailed => []
    case KlineRows(rows) => seq(|rows|, i requires 0 <= i < |rows| => RowToKline(rows[i]))
  }
}
