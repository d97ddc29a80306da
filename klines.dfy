/**
 * Kline (candlestick) rows as `/api/v3/klines` returns them, and the request
 * both kline routes send. A row is the list of its cells after `parseFloat`;
 * a cell the row lacks reads as `undefined`, which `parseFloat` turns into NaN.
 */
module Klines {
  import opened JsValues
  import opened Text
  import opened Http

  /** The parameters both routes pass to `fetchWithRetry('/klines', ...)`. */
  datatype KlineQuery = KlineQuery(symbol: string, interval: string, startTime: int, endTime: int)

  /** One upstream row: open time, open, high, low, close, volume, ... */
  type KlineRow = seq<real>

  /** A number after `parseFloat`, where a missing cell gives NaN. */
  datatype Num = Value(v: real) | NaN

  /** `parseFloat(item[k])` */
  function Cell(row: KlineRow, k: nat): (n: Num)
    ensures n.Value? <==> k < |row|
    ensures n.Value? ==> n.v == row[k]
  {
    if k < |row| then Value(row[k]) else NaN
  }

  /**
   * `rows.map(f)` where `f` starts with `new Date(item[0]).toISOString()`:
   * `None` when some row has no open time, since that call throws.
   */
  function MapRows<T>(rows: seq<KlineRow>, f: KlineRow --> T): (r: Option<seq<T>>)
    requires forall row :: |row| > 0 ==> f.requires(row)
    ensures r.Some? <==> forall i :: 0 <= i < |rows| ==> |rows[i]| > 0
    ensures r.Some? ==> |r.value| == |rows| && forall i :: 0 <= i < |rows| ==> r.value[i] == f(rows[i])
  {
    if rows == [] then Some([])
    else if |rows[0]| == 0 then None
    else
      match MapRows(rows[1..], f)
      case None =>
        assert exists i :: 1 <= i < |rows| && |rows[i]| == 0 by {
          var j :| 0 <= j < |rows[1..]| && |rows[1..][j]| == 0;
          assert |rows[j + 1]| == 0;
        }
        None
      case Some(rest) =>
        var out := [f(rows[0])] + rest;
        assert forall i :: 1 <= i < |rows| ==> out[i] == rest[i - 1] && rows[i] == rows[1..][i - 1];
        Some(out)
  }

  /** What a kline route settles with, and what it asked upstream for. */
  datatype Handled<+T> = Handled(resp: Response<T>, issued: Option<KlineQuery>, attempts: nat)

  /** The exchange pair for a coin: `symbol.toUpperCase() + 'USDT'`. */
  function PairOf(symbol: string): (p: string)
    ensures |p| == |symbol| + 4 && p[..|symbol|] == ToUpper(symbol)
    ensures EndsWith(p, "USDT")
  {
    ToUpper(symbol) + "USDT"
  }
}
