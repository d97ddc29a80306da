/**
 * GET /api/coin/candlestick: OHLCV candles of a coin between two dates at a
 * given interval. Date parsing (`new Date(x).getTime()`) is the oracle
 * `toMillis`.
 */
module CoinCandlestick {
  import opened JsValues
  import opened Http
  import opened BinanceService
  import opened Klines

  /** One candle: open time, open, high, low, close and volume. */
  datatype Candle = Candle(time: real, open: Num, high: Num, low: Num, close: Num, volume: Num)

  /** `item => ({ time: item[0], open: item[1], ..., volume: item[5] })` */
  function CandleOf(row: KlineRow): (c: Candle)
    requires |row| > 0
    ensures c.time == row[0]
    ensures c.open == Cell(row, 1) && c.high == Cell(row, 2) && c.low == Cell(row, 3)
    ensures c.close == Cell(row, 4) && c.volume == Cell(row, 5)
  {
    Candle(row[0], Cell(row, 1), Cell(row, 2), Cell(row, 3), Cell(row, 4), Cell(row, 5))
  }

  /** `response.data.map(...)`: one candle per row, in row order, fields by position. */
  function Candles(rows: seq<KlineRow>): (r: Option<seq<Candle>>)
    ensures r.Some? <==> forall i :: 0 <= i < |rows| ==> |rows[i]| > 0
    ensures r.Some? ==> |r.value| == |rows|
    ensures r.Some? ==> forall i :: 0 <= i < |rows| ==>
                          var c := r.value[i];
                          && c.time == rows[i][0] && c.open == Cell(rows[i], 1) && c.high == Cell(rows[i], 2)
                          && c.low == Cell(rows[i], 3) && c.close == Cell(rows[i], 4) && c.volume == Cell(rows[i], 5)
  {
    MapRows(rows, CandleOf)
  }

  /** The route handler. */
  function CandlestickRoute(symbol: Option<string>, start: Option<string>, end: Option<string>,
                            interval: Option<string>, toMillis: string -> int,
                            upstream: (string, KlineQuery, nat) -> Reply<seq<KlineRow>>): (h: Handled<seq<Candle>>)
    ensures !(TruthyStr(symbol) && TruthyStr(start) && TruthyStr(end) && TruthyStr(interval)) ==>
              h == Handled(Error(400, "Symbol, start, end, and interval parameters are required"), None, 0)
    ensures TruthyStr(symbol) && TruthyStr(start) && TruthyStr(end) && TruthyStr(interval) ==>
              && h.issued == Some(KlineQuery(PairOf(symbol.value), interval.value,
                                             toMillis(start.value), toMillis(end.value)))
              && var (r, n) := RetryFrom(upstream, ApiPath("/klines"), h.issued.value, DefaultRetries, 0);
              && h.attempts == n && 1 <= n <= 3
              && (r.Fetched? && Candles(r.data).Some? ==> h.resp == Json(200, Candles(r.data).value))
              && (!(r.Fetched? && Candles(r.data).Some?) ==> h.resp == Error(500, "Failed to fetch candlestick data"))
  {
    if !(TruthyStr(symbol) && TruthyStr(start) && TruthyStr(end) && TruthyStr(interval)) then
      Handled(Error(400, "Symbol, start, end, and interval parameters are required"), None, 0)
    else
      var q := KlineQuery(PairOf(symbol.value), interval.value, toMillis(start.value), toMillis(end.value));
      var (r, n) := RetryFrom(upstream, ApiPath("/klines"), q, DefaultRetries, 0);
      RetryOutcome(upstream, ApiPath("/klines"), q, DefaultRetries, 0);
      if r.Fetched? && Candles(r.data).Some? then
        Handled(Json(200, Candles(r.data).value), Some(q), n)
      else
        Handled(Error(500, "Failed to fetch candlestick data"), Some(q), n)
  }
}
