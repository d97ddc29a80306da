/**
 * GET /api/coin/history: today's 5-minute closing prices of a coin, cached
 * under a key that changes at day rollover. The clock is a parameter:
 * `dayStart` is today's local midnight and `now` the current time, both in
 * epoch milliseconds.
 */
module CoinHistory {
  import opened JsValues
  import opened Text
  import opened Http
  import opened CacheStore
  import opened BinanceService
  import opened Klines

  /** One point of the history: the row's open time and its close price. */
  datatype HistoryPoint = HistoryPoint(time: real, price: Num)

  /** `history_${symbol}_${startTime}` */
  function HistoryKey(symbol: string, startTime: nat): string
  {
    "history_" + symbol + "_" + NatToString(startTime)
  }

  /** Different (symbol, day) pairs never share a cache entry. */
  lemma HistoryKeyInjective(s1: string, t1: nat, s2: string, t2: nat)
    requires HistoryKey(s1, t1) == HistoryKey(s2, t2)
    ensures s1 == s2 && t1 == t2
  {
    var d1, d2 := NatToString(t1), NatToString(t2);
    var k := HistoryKey(s1, t1);
    assert k == "history_" + s1 + "_" + d1;
    assert k == "history_" + s2 + "_" + d2;
    // the last '_' of the key sits just before the digits of the day
    assert k[|k| - |d1| - 1] == '_' && k[|k| - |d2| - 1] == '_';
    assert forall j :: |k| - |d1| <= j < |k| ==> k[j] == d1[j - (|k| - |d1|)];
    assert forall j :: |k| - |d2| <= j < |k| ==> k[j] == d2[j - (|k| - |d2|)];
    assert |d1| == |d2|;
    assert d1 == k[|k| - |d1|..] == d2;
    NatToStringInjective(t1, t2);
    assert s1 == k[8..|k| - |d1| - 1] == s2;
  }

  /** `item => ({ time: item[0], price: parseFloat(item[4]) })` */
  function PointOf(row: KlineRow): (p: HistoryPoint)
    requires |row| > 0
    ensures p.time == row[0]
    ensures p.price.Value? <==> |row| > 4
    ensures p.price.Value? ==> p.price.v == row[4]
  {
    HistoryPoint(row[0], Cell(row, 4))
  }

  /**
   * `response.data.map(...)`: `None` when a row has no open time; otherwise
   * the rows' length and order are kept, each point taking its time from
   * cell 0 and its price from cell 4.
   */
  function HistoryPoints(rows: seq<KlineRow>): (r: Option<seq<HistoryPoint>>)
    ensures r.Some? <==> forall i :: 0 <= i < |rows| ==> |rows[i]| > 0
    ensures r.Some? ==> |r.value| == |rows|
    ensures r.Some? ==> forall i :: 0 <= i < |rows| ==>
                          r.value[i].time == rows[i][0] && r.value[i].price == Cell(rows[i], 4)
  {
    MapRows(rows, PointOf)
  }

  /** The route handler. `issued` is the query sent upstream, if any. */
  method CoinHistoryRoute(cache: Cache<seq<HistoryPoint>>, symbol: Option<string>, dayStart: nat, now: int,
                          upstream: (string, KlineQuery, nat) -> Reply<seq<KlineRow>>)
    returns (resp: Response<seq<HistoryPoint>>, issued: Option<KlineQuery>, attempts: nat)
    modifies cache
    ensures !TruthyStr(symbol) ==>
              resp == Error(400, "Symbol parameter is required") && issued == None && attempts == 0
              && cache.entries == old(cache.entries)
    ensures TruthyStr(symbol) && HistoryKey(symbol.value, dayStart) in old(cache.entries) ==>
              resp == Json(200, old(cache.entries)[HistoryKey(symbol.value, dayStart)])
              && issued == None && attempts == 0 && cache.entries == old(cache.entries)
    ensures TruthyStr(symbol) && HistoryKey(symbol.value, dayStart) !in old(cache.entries) ==>
              var q := KlineQuery(PairOf(symbol.value), "5m", dayStart, now);
              var (r, n) := RetryFrom(upstream, ApiPath("/klines"), q, DefaultRetries, 0);
              && issued == Some(q) && attempts == n && attempts <= 3
              && (r.Fetched? && HistoryPoints(r.data).Some? ==>
                    resp == Json(200, HistoryPoints(r.data).value)
                    && cache.entries == old(cache.entries)[HistoryKey(symbol.value, dayStart) := HistoryPoints(r.data).value])
              && (!(r.Fetched? && HistoryPoints(r.data).Some?) ==>
                    resp == Error(500, "Failed to fetch data") && cache.entries == old(cache.entries))
  {
    if !TruthyStr(symbol) {
      return Error(400, "Symbol parameter is required"), None, 0;
    }
    var sym := symbol.value;
    var cacheKey := HistoryKey(sym, dayStart);
    var cached := cache.Get(cacheKey);
    if cached.Some? {
      // a cached array is truthy even when empty
      return Json(200, cached.value), None, 0;
    }
    var q := KlineQuery(PairOf(sym), "5m", dayStart, now);
    issued := Some(q);
    var r, n, waited := FetchWithRetry(upstream, "/klines", q, DefaultRetries, DefaultDelayMs);
    RetryOutcome(upstream, ApiPath("/klines"), q, DefaultRetries, 0);
    attempts := n;
    if !r.Fetched? {
      return Error(500, "Failed to fetch data"), issued, attempts;
    }
    var points := HistoryPoints(r.data);
    if points.None? {
      // `new Date(undefined).toISOString()` throws
      return Error(500, "Failed to fetch data"), issued, attempts;
    }
    cache.Set(cacheKey, points.value);
    resp := Json(200, points.value);
  }

  /** A second request the same day is served from the cache without an upstream call. */
  method SecondRequestIsCached(cache: Cache<seq<HistoryPoint>>, symbol: string, dayStart: nat, now1: int, now2: int,
                               upstream: (string, KlineQuery, nat) -> Reply<seq<KlineRow>>)
    returns (first: Response<seq<HistoryPoint>>, second: Response<seq<HistoryPoint>>, issued: Option<KlineQuery>)
    requires symbol != ""
    modifies cache
    ensures first.Json? ==> second == first && issued == None
  {
    var i1: Option<KlineQuery>, n1: nat, n2: nat;
    first, i1, n1 := CoinHistoryRoute(cache, Some(symbol), dayStart, now1, upstream);
    second, issued, n2 := CoinHistoryRoute(cache, Some(symbol), dayStart, now2, upstream);
  }
}
