/**
 * GET /api/coins/search: up to ten USDT pairs whose base asset starts with
 * the query, or whose pair name contains it, ignoring case.
 */
module SearchCoins {
  import opened JsValues
  import opened Text
  import opened Seqs
  import opened Http
  import opened Market

  /** Most results returned. */
  const MaxResults: nat := 10

  /** `{ symbol: s.symbol, base: s.baseAsset }` */
  datatype Candidate = Candidate(symbol: string, base: string)

  /** `{ symbol: c.base, name: c.base, image: null }` */
  datatype SearchResult = SearchResult(symbol: string, name: string, image: Option<string>)

  /** The USDT instruments, projected to pair and base, in upstream order. */
  function Candidates(metas: seq<SymbolMeta>): (cs: seq<Candidate>)
    ensures |cs| == |Filter(metas, IsUsdtPair)|
    ensures forall i :: 0 <= i < |cs| ==>
              var m := Filter(metas, IsUsdtPair)[i];
              cs[i] == Candidate(m.symbol, m.baseAsset) && EndsWith(m.symbol, Quote) && m in metas
  {
    var usdt := Filter(metas, IsUsdtPair);
    assert forall i :: 0 <= i < |usdt| ==> usdt[i] in usdt;
    seq(|usdt|, i requires 0 <= i < |usdt| => Candidate(usdt[i].symbol, usdt[i].baseAsset))
  }

  /** The match test of the second `filter`. */
  predicate QueryMatches(query: string, c: Candidate)
  {
    StartsWith(ToLower(c.base), ToLower(query)) || Contains(ToLower(c.symbol), ToLower(query))
  }

  /** `QueryMatches` as the function value `filter` takes. */
  function MatchesQuery(query: string): Candidate -> bool
  {
    (c: Candidate) => QueryMatches(query, c)
  }

  /** The matching candidates, before the cap. */
  function Matching(metas: seq<SymbolMeta>, query: string): seq<Candidate>
  {
    Filter(Candidates(metas), MatchesQuery(query))
  }

  /** `.slice(0, 10).map(...)` */
  function SearchResults(metas: seq<SymbolMeta>, query: string): (out: seq<SearchResult>)
    ensures |out| == if |Matching(metas, query)| < MaxResults then |Matching(metas, query)| else MaxResults
    ensures forall i :: 0 <= i < |out| ==>
              var c := Matching(metas, query)[i];
              out[i] == SearchResult(c.base, c.base, None)
  {
    var top := Take(Matching(metas, query), MaxResults);
    seq(|top|, i requires 0 <= i < |top| => SearchResult(top[i].base, top[i].base, None))
  }

  /**
   * Each result is named after the base asset of a USDT instrument that
   * matches the query; when fewer than ten match, every match is returned.
   */
  lemma {:induction false} SearchResultsSpec(metas: seq<SymbolMeta>, query: string)
    ensures |SearchResults(metas, query)| <= MaxResults
    ensures forall r :: r in SearchResults(metas, query) ==>
              r.name == r.symbol && r.image == None
              && exists m :: m in metas && EndsWith(m.symbol, Quote) && m.baseAsset == r.symbol
                             && QueryMatches(query, Candidate(m.symbol, m.baseAsset))
    ensures |Matching(metas, query)| <= MaxResults ==>
              forall m :: m in metas && EndsWith(m.symbol, Quote) && QueryMatches(query, Candidate(m.symbol, m.baseAsset)) ==>
                SearchResult(m.baseAsset, m.baseAsset, None) in SearchResults(metas, query)
  {
    var out := SearchResults(metas, query);
    var cs := Candidates(metas);
    var usdt := Filter(metas, IsUsdtPair);
    var hits := Matching(metas, query);
    forall r | r in out
      ensures r.name == r.symbol && r.image == None
              && exists m :: m in metas && EndsWith(m.symbol, Quote) && m.baseAsset == r.symbol
                             && QueryMatches(query, Candidate(m.symbol, m.baseAsset))
    {
      var i :| 0 <= i < |out| && out[i] == r;
      assert hits[i] in hits;
      var j :| 0 <= j < |cs| && cs[j] == hits[i];
      var m := usdt[j];
      assert cs[j] == Candidate(m.symbol, m.baseAsset);
    }
    if |hits| <= MaxResults {
      forall m | m in metas && EndsWith(m.symbol, Quote) && QueryMatches(query, Candidate(m.symbol, m.baseAsset))
        ensures SearchResult(m.baseAsset, m.baseAsset, None) in out
      {
        assert IsUsdtPair(m);
        var j :| 0 <= j < |usdt| && usdt[j] == m;
        assert cs[j] == Candidate(m.symbol, m.baseAsset);
        assert MatchesQuery(query)(cs[j]);
        var i :| 0 <= i < |hits| && hits[i] == cs[j];
        assert out[i] == SearchResult(m.baseAsset, m.baseAsset, None);
      }
    }
  }

  /** The query's letter case does not change the results. */
  lemma SearchIgnoresQueryCase(metas: seq<SymbolMeta>, q1: string, q2: string)
    requires ToLower(q1) == ToLower(q2)
    ensures SearchResults(metas, q1) == SearchResults(metas, q2)
  {
    FilterExt(Candidates(metas), MatchesQuery(q1), MatchesQuery(q2));
  }

  /** The route handler; `info` is the reply of the one `exchangeInfo` call. */
  function SearchCoinsRoute(query: Option<string>, info: Reply<seq<SymbolMeta>>): (r: (Response<seq<SearchResult>>, bool))
    ensures !TruthyStr(query) ==> r == (Error(400, "Query parameter is required"), false)
    ensures TruthyStr(query) ==> r.1
    ensures TruthyStr(query) && info.Fail? ==> r.0 == Error(500, "Failed to search coins")
    ensures TruthyStr(query) && info.Ok? ==> r.0 == Json(200, SearchResults(info.data, query.value))
  {
    if !TruthyStr(query) then (Error(400, "Query parameter is required"), false)
    else
      match info
      case Fail(_, _, _) => (Error(500, "Failed to search coins"), true)
      case Ok(metas) => (Json(200, SearchResults(metas, query.value)), true)
  }
}
