/**
 * `useSearchCoins`: client-side symbol search over the exchange's
 * instrument list, kept in a ten-minute cache. The clock (`now`) and the
 * exchange's reply are parameters of each fetch; the 60-second retry timer
 * is an explicit event.
 */
module SearchCoinsHook {
  import opened JsValues
  import opened Text
  import opened Seqs
  import opened Http
  import opened Market

  const CacheTimeMs: int := 10 * 60 * 1000
  const RetryDelayMs: nat := 60 * 1000
  const MaxCoins: nat := 10
  const RateLimitMessage: string := "Rate limit exceeded. Please try again in a few minutes."

  /** `{ symbol: baseAsset, pair: symbol }` */
  datatype CoinEntry = CoinEntry(symbol: string, pair: string)

  /** The error the hook stores: the fixed rate-limit message, or the request's own message. */
  datatype SearchError = SearchError(message: string)

  predicate QuotedInUsdt(m: SymbolMeta)
  {
    m.quoteAsset == Quote
  }

  /** `symbols.filter(s => s.quoteAsset === 'USDT').map(...)` */
  function UsdtEntries(metas: seq<SymbolMeta>): (es: seq<CoinEntry>)
    ensures |es| == |Filter(metas, QuotedInUsdt)|
    ensures forall i :: 0 <= i < |es| ==>
              var m := Filter(metas, QuotedInUsdt)[i];
              es[i] == CoinEntry(m.baseAsset, m.symbol) && m.quoteAsset == Quote && m in metas
  {
    var usdt := Filter(metas, QuotedInUsdt);
    assert forall i :: 0 <= i < |usdt| ==> usdt[i] in usdt;
    seq(|usdt|, i requires 0 <= i < |usdt| => CoinEntry(usdt[i].baseAsset, usdt[i].symbol))
  }

  /** `coin.symbol.toLowerCase().includes(searchTerm.toLowerCase())` */
  function BaseContains(term: string): CoinEntry -> bool
  {
    (c: CoinEntry) => Contains(ToLower(c.symbol), ToLower(term))
  }

  /** `allSymbols.filter(...).slice(0, 10)` */
  function FilterCoins(all: seq<CoinEntry>, term: string): (r: seq<CoinEntry>)
    ensures |r| <= MaxCoins
    ensures |r| == if |Filter(all, BaseContains(term))| < MaxCoins then |Filter(all, BaseContains(term))| else MaxCoins
    ensures r == Filter(all, BaseContains(term))[..|r|]
    ensures forall c :: c in r ==> c in all && Contains(ToLower(c.symbol), ToLower(term))
  {
    var hits := Filter(all, BaseContains(term));
    var r := Take(hits, MaxCoins);
    assert forall c :: c in r ==> c in hits;
    r
  }

  /** `cacheRef.current.data && now - cacheRef.current.timestamp < CACHE_TIME`; an empty array is truthy. */
  predicate CacheFresh(data: Option<seq<CoinEntry>>, timestamp: int, now: int)
  {
    data.Some? && now - timestamp < CacheTimeMs
  }

  /** The hook's state and its `cacheRef`. */
  class SymbolSearch {
    var coins: seq<CoinEntry>
    var loading: bool
    var error: Option<SearchError>
    var cacheData: Option<seq<CoinEntry>>
    var cacheTimestamp: int
    /**
     * The retry timers still pending, each with the term of the effect that
     * scheduled it, in firing order: all wait the same delay, so they fire
     * in the order they were set, and nothing ever cancels one.
     */
    var pendingRetries: seq<string>

    /** Only USDT-quoted instruments, projected, are ever cached. */
    ghost predicate Valid()
      reads this
    {
      cacheData.Some? ==> exists metas :: cacheData.value == UsdtEntries(metas)
    }

    constructor ()
      ensures Valid()
      ensures coins == [] && !loading && error == None && cacheData == None && cacheTimestamp == 0 && pendingRetries == []
    {
      coins := [];
      loading := false;
      error := None;
      cacheData := None;
      cacheTimestamp := 0;
      pendingRetries := [];
    }

    /**
     * `fetchCoins` for `term` at time `now`; `reply` is what the exchange
     * would answer if asked. `fetched` tells whether it was asked.
     */
    method FetchCoins(term: string, now: int, reply: Reply<seq<SymbolMeta>>) returns (fetched: bool)
      modifies this
      ensures term == "" ==>
                !fetched && coins == [] && loading == old(loading) && error == old(error)
                && cacheData == old(cacheData) && cacheTimestamp == old(cacheTimestamp)
                && pendingRetries == old(pendingRetries)
      ensures term != "" ==> !loading
      ensures term != "" ==> fetched == !CacheFresh(old(cacheData), old(cacheTimestamp), now)
      ensures term != "" && !fetched ==>
                coins == FilterCoins(old(cacheData).value, term) && error == None
                && cacheData == old(cacheData) && cacheTimestamp == old(cacheTimestamp)
                && pendingRetries == old(pendingRetries)
      ensures term != "" && fetched && reply.Ok? ==>
                cacheData == Some(UsdtEntries(reply.data)) && cacheTimestamp == now
                && coins == FilterCoins(UsdtEntries(reply.data), term) && error == None
                && pendingRetries == old(pendingRetries)
      ensures term != "" && fetched && reply.Fail? ==>
                coins == old(coins) && cacheData == old(cacheData) && cacheTimestamp == old(cacheTimestamp)
      ensures term != "" && fetched && RateLimited(reply) ==>
                error == Some(SearchError(RateLimitMessage)) && pendingRetries == old(pendingRetries) + [term]
      ensures term != "" && fetched && reply.Fail? && !RateLimited(reply) ==>
                error == Some(SearchError(reply.message)) && pendingRetries == old(pendingRetries)
      ensures old(Valid()) ==> Valid()
    {
      if term == "" {
        coins := [];
        return false;
      }
      loading := true;
      error := None;
      var all: seq<CoinEntry>;
      if cacheData.Some? && now - cacheTimestamp < CacheTimeMs {
        fetched := false;
        all := cacheData.value;
      } else {
        fetched := true;
        match reply {
          case Fail(st, _, m) =>
            if st == Some(429) {
              error := Some(SearchError(RateLimitMessage));
              pendingRetries := pendingRetries + [term];
            } else {
              error := Some(SearchError(m));
            }
            loading := false;
            return;
          case Ok(metas) =>
            all := UsdtEntries(metas);
            cacheData := Some(all);
            cacheTimestamp := now;
        }
      }
      coins := FilterCoins(all, term);
      loading := false;
    }

    /**
     * The earliest pending retry timer fires: `fetchCoins` runs again for the
     * term it was scheduled with, whatever the current search term is.
     */
    method RetryFire(now: int, reply: Reply<seq<SymbolMeta>>) returns (fetched: bool)
      modifies this
      ensures old(pendingRetries) == [] ==> unchanged(this) && !fetched
      ensures old(pendingRetries) != [] && old(pendingRetries)[0] == "" ==>
                !fetched && coins == [] && loading == old(loading) && error == old(error)
                && cacheData == old(cacheData) && cacheTimestamp == old(cacheTimestamp)
                && pendingRetries == old(pendingRetries)[1..]
      ensures old(pendingRetries) != [] && old(pendingRetries)[0] != "" ==>
                !loading && fetched == !CacheFresh(old(cacheData), old(cacheTimestamp), now)
      ensures old(pendingRetries) != [] && old(pendingRetries)[0] != "" && !fetched ==>
                coins == FilterCoins(old(cacheData).value, old(pendingRetries)[0]) && error == None
                && cacheData == old(cacheData) && cacheTimestamp == old(cacheTimestamp)
                && pendingRetries == old(pendingRetries)[1..]
      ensures old(pendingRetries) != [] && old(pendingRetries)[0] != "" && fetched && reply.Ok? ==>
                cacheData == Some(UsdtEntries(reply.data)) && cacheTimestamp == now && error == None
                && coins == FilterCoins(UsdtEntries(reply.data), old(pendingRetries)[0])
                && pendingRetries == old(pendingRetries)[1..]
      ensures old(pendingRetries) != [] && old(pendingRetries)[0] != "" && fetched && reply.Fail? ==>
                coins == old(coins) && cacheData == old(cacheData) && cacheTimestamp == old(cacheTimestamp)
      ensures old(pendingRetries) != [] && old(pendingRetries)[0] != "" && fetched && RateLimited(reply) ==>
                error == Some(SearchError(RateLimitMessage))
                && pendingRetries == old(pendingRetries)[1..] + [old(pendingRetries)[0]]
      ensures old(pendingRetries) != [] && old(pendingRetries)[0] != "" && fetched && reply.Fail? && !RateLimited(reply) ==>
                error == Some(SearchError(reply.message)) && pendingRetries == old(pendingRetries)[1..]
      ensures old(Valid()) ==> Valid()
    {
      if pendingRetries == [] {
        return false;
      }
      var term := pendingRetries[0];
      pendingRetries := pendingRetries[1..];
      fetched := FetchCoins(term, now, reply);
    }
  }
}
