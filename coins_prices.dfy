/**
 * GET /api/coins/prices: current price and 24-hour change of each
 * requested coin, read from the exchange's 24-hour tickers. The clock is a
 * parameter: `now` is the ISO string every quote is stamped with.
 */
module CoinsPrices {
  import opened JsValues
  import opened Text
  import opened Seqs
  import opened Http
  import opened Market

  /** One element of the response array. */
  datatype PriceQuote = PriceQuote(symbol: string, price: real, percentChange24h: real, lastUpdated: string)

  /** `symbols.split(',').map(s => s.toUpperCase())` */
  function RequestedSymbols(symbols: string): (req: seq<string>)
    ensures |req| == |Split(symbols, ',')|
    ensures forall i :: 0 <= i < |req| ==> req[i] == ToUpper(Split(symbols, ',')[i])
  {
    var parts := Split(symbols, ',');
    seq(|parts|, i requires 0 <= i < |parts| => ToUpper(parts[i]))
  }

  /** One requested symbol per comma-separated piece, even an empty one. */
  lemma RequestedCount(symbols: string)
    ensures |RequestedSymbols(symbols)| == Count(symbols, ',') + 1
  {
    SplitLength(symbols, ',');
  }

  /** Already upper-case, comma-free symbols joined with commas are read back as they were. */
  lemma RequestedRoundTrip(req: seq<string>)
    requires |req| >= 1
    requires forall k :: 0 <= k < |req| ==> ',' !in req[k] && ToUpper(req[k]) == req[k]
    ensures RequestedSymbols(Join(req, ',')) == req
  {
    SplitJoin(req, ',');
  }

  /** `c => coinSymbols.includes(c.symbol.replace('USDT', ''))` */
  function IsRequested(req: seq<string>): Ticker -> bool
  {
    (t: Ticker) => StripQuote(t.symbol) in req
  }

  /** The projection of one matching ticker. */
  function QuoteOf(t: Ticker, now: string): (q: PriceQuote)
    ensures q.symbol == StripQuote(t.symbol) && q.price == t.lastPrice
    ensures q.percentChange24h == t.priceChangePercent && q.lastUpdated == now
  {
    PriceQuote(StripQuote(t.symbol), t.lastPrice, t.priceChangePercent, now)
  }

  /** `response.data.filter(...).map(...)` */
  function PriceQuotes(tickers: seq<Ticker>, req: seq<string>, now: string): (out: seq<PriceQuote>)
    ensures |out| == |Filter(tickers, IsRequested(req))|
    ensures forall i :: 0 <= i < |out| ==> out[i] == QuoteOf(Filter(tickers, IsRequested(req))[i], now)
  {
    var hits := Filter(tickers, IsRequested(req));
    seq(|hits|, i requires 0 <= i < |hits| => QuoteOf(hits[i], now))
  }

  /**
   * Every quote names a requested symbol and comes from a ticker whose pair
   * loses its first "USDT" to give that symbol; every such ticker yields a
   * quote.
   */
  lemma {:induction false} PriceQuotesSpec(tickers: seq<Ticker>, req: seq<string>, now: string)
    ensures forall q :: q in PriceQuotes(tickers, req, now) ==>
              q.symbol in req && exists t :: t in tickers && q == QuoteOf(t, now)
    ensures forall t :: t in tickers && StripQuote(t.symbol) in req ==> QuoteOf(t, now) in PriceQuotes(tickers, req, now)
  {
    var out := PriceQuotes(tickers, req, now);
    var hits := Filter(tickers, IsRequested(req));
    forall q | q in out
      ensures q.symbol in req && exists t :: t in tickers && q == QuoteOf(t, now)
    {
      var i :| 0 <= i < |out| && out[i] == q;
      assert hits[i] in hits;
    }
    forall t | t in tickers && StripQuote(t.symbol) in req
      ensures QuoteOf(t, now) in out
    {
      assert IsRequested(req)(t);
      var i :| 0 <= i < |hits| && hits[i] == t;
      assert out[i] == QuoteOf(t, now);
    }
  }

  /** A requested symbol no ticker strips to is simply absent from the output. */
  lemma UnlistedSymbolAbsent(tickers: seq<Ticker>, req: seq<string>, now: string, s: string)
    requires forall t :: t in tickers ==> StripQuote(t.symbol) != s
    ensures forall q :: q in PriceQuotes(tickers, req, now) ==> q.symbol != s
  {
    PriceQuotesSpec(tickers, req, now);
  }

  /** Only the set of requested symbols matters: duplicates add no output. */
  lemma PriceQuotesIgnoreDuplicates(tickers: seq<Ticker>, req1: seq<string>, req2: seq<string>, now: string)
    requires forall s :: s in req1 <==> s in req2
    ensures PriceQuotes(tickers, req1, now) == PriceQuotes(tickers, req2, now)
  {
    FilterExt(tickers, IsRequested(req1), IsRequested(req2));
  }

  /** The route handler; `tickers` is the reply of the one upstream call. */
  function CoinsPricesRoute(symbols: Option<string>, tickers: Reply<seq<Ticker>>, now: string)
    : (r: (Response<seq<PriceQuote>>, bool))
    ensures !TruthyStr(symbols) ==> r == (Error(400, "Symbols parameter is required"), false)
    ensures TruthyStr(symbols) ==> r.1
    ensures TruthyStr(symbols) && tickers.Fail? ==> r.0 == Error(500, "Failed to fetch current prices")
    ensures TruthyStr(symbols) && tickers.Ok? ==>
              r.0 == Json(200, PriceQuotes(tickers.data, RequestedSymbols(symbols.value), now))
  {
    if !TruthyStr(symbols) then (Error(400, "Symbols parameter is required"), false)
    else
      match tickers
      case Fail(_, _, _) => (Error(500, "Failed to fetch current prices"), true)
      case Ok(data) => (Json(200, PriceQuotes(data, RequestedSymbols(symbols.value), now)), true)
  }
}
