/**
 * `getCoinImageUrl`: resolves a coin's image URL through the cache, falling
 * back to the metadata search. The search request is an oracle: the reply
 * it yields for this symbol.
 */
module CoingeckoService {
  import opened JsValues
  import opened Text
  import opened Http
  import opened CacheStore

  /** One element of the search reply's `coins`. */
  datatype CoinHit = CoinHit(symbol: string, large: Option<string>)

  /** `image_${symbol}` */
  function ImageKey(symbol: string): (k: string)
    ensures |k| == 6 + |symbol| && k[..6] == "image_" && k[6..] == symbol
  {
    "image_" + symbol
  }

  /** `c.symbol.toLowerCase() === symbol.toLowerCase()` */
  predicate SameSymbol(a: string, b: string)
  {
    ToLower(a) == ToLower(b)
  }

  /** The index `coins.find` stops at: the first hit whose symbol matches case-insensitively. */
  function FirstMatchIndex(coins: seq<CoinHit>, symbol: string): (r: Option<nat>)
    ensures r.Some? ==> r.value < |coins| && SameSymbol(coins[r.value].symbol, symbol)
    ensures forall j :: 0 <= j < |coins| && (r.None? || j < r.value) ==> !SameSymbol(coins[j].symbol, symbol)
  {
    if coins == [] then None
    else if SameSymbol(coins[0].symbol, symbol) then Some(0)
    else
      match FirstMatchIndex(coins[1..], symbol)
      case None => None
      case Some(i) => Some(i + 1)
  }

  /** `coin?.large || null` */
  function ChosenImage(coins: seq<CoinHit>, symbol: string): Option<string>
  {
    match FirstMatchIndex(coins, symbol)
    case None => None
    case Some(i) => if TruthyStr(coins[i].large) then coins[i].large else None
  }

  /**
   * The chosen URL, when there is one, is the non-empty `large` URL of the
   * first matching hit; that hit's `large`, when truthy, is always chosen,
   * and a falsy one gives null.
   */
  lemma ChosenImageSpec(coins: seq<CoinHit>, symbol: string)
    ensures forall i :: 0 <= i < |coins| && SameSymbol(coins[i].symbol, symbol)
                        && (forall j :: 0 <= j < i ==> !SameSymbol(coins[j].symbol, symbol)) ==>
              ChosenImage(coins, symbol) == if TruthyStr(coins[i].large) then coins[i].large else None
    ensures ChosenImage(coins, symbol).Some? ==>
              ChosenImage(coins, symbol).value != ""
              && exists i :: 0 <= i < |coins| && SameSymbol(coins[i].symbol, symbol)
                             && coins[i].large == ChosenImage(coins, symbol)
                             && forall j :: 0 <= j < i ==> !SameSymbol(coins[j].symbol, symbol)
    ensures (forall j :: 0 <= j < |coins| ==> !SameSymbol(coins[j].symbol, symbol)) ==>
              ChosenImage(coins, symbol) == None
  {
    match FirstMatchIndex(coins, symbol)
    case None =>
    case Some(i) =>
  }

  lemma LowerCharIdempotent(c: char)
    ensures LowerChar(LowerChar(c)) == LowerChar(c)
  {
  }

  /** The match ignores the case of the requested symbol. */
  lemma {:induction false} ChosenImageIgnoresCase(coins: seq<CoinHit>, a: string, b: string)
    requires ToLower(a) == ToLower(b)
    ensures ChosenImage(coins, a) == ChosenImage(coins, b)
    ensures ChosenImage(coins, a) == ChosenImage(coins, ToLower(a))
  {
    assert ToLower(ToLower(a)) == ToLower(a) by {
      forall i | 0 <= i < |a| ensures ToLower(ToLower(a))[i] == ToLower(a)[i] {
        LowerCharIdempotent(a[i]);
      }
    }
    assert FirstMatchIndex(coins, a) == FirstMatchIndex(coins, b) == FirstMatchIndex(coins, ToLower(a)) by {
      FirstMatchDependsOnLower(coins, a, b);
      FirstMatchDependsOnLower(coins, a, ToLower(a));
    }
  }

  lemma {:induction false} FirstMatchDependsOnLower(coins: seq<CoinHit>, a: string, b: string)
    requires ToLower(a) == ToLower(b)
    ensures FirstMatchIndex(coins, a) == FirstMatchIndex(coins, b)
  {
    if coins != [] {
      FirstMatchDependsOnLower(coins[1..], a, b);
    }
  }

  /**
   * `getCoinImageUrl(symbol)`: a truthy cached URL is returned without a
   * search; otherwise the search decides, a failure gives `null`, and only a
   * non-null URL is cached.
   */
  method GetCoinImageUrl(cache: Cache<string>, symbol: string, search: Reply<seq<CoinHit>>)
    returns (url: Option<string>, searched: bool)
    modifies cache
    ensures var cached := old(cache.Get(ImageKey(symbol)));
            TruthyStr(cached) ==> url == cached && !searched && cache.entries == old(cache.entries)
    ensures !TruthyStr(old(cache.Get(ImageKey(symbol)))) ==>
              && searched
              && url == (if search.Ok? then ChosenImage(search.data, symbol) else None)
              && cache.entries == (if url.Some? then old(cache.entries)[ImageKey(symbol) := url.value]
                                   else old(cache.entries))
  {
    var cacheKey := ImageKey(symbol);
    var cached := cache.Get(cacheKey);
    if TruthyStr(cached) {
      return cached, false;
    }
    searched := true;
    match search {
      case Fail(_, _, _) =>
        url := None;
      case Ok(coins) =>
        url := ChosenImage(coins, symbol);
        if url.Some? {
          cache.Set(cacheKey, url.value);
        }
    }
  }
}
