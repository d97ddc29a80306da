/**
 * GET /api/top-10-volume: joins the 24-hour ticker with the instrument
 * metadata, keeps the USDT pairs, ranks them by traded volume and enriches
 * the ten largest with an image URL.
 */
module Top10Volume {
  import opened JsValues
  import opened Text
  import opened Seqs
  import opened Http
  import opened Market

  /** How many coins the ranking keeps. */
  const TopCount: nat := 10

  /** The image shown when no image URL could be resolved. */
  const PlaceholderImage: string := "https://via.placeholder.com/30"

  /** One element of the ranked output. */
  datatype RankedCoin = RankedCoin(
    rank: nat,
    symbol: string,
    name: string,
    image: string,
    currentPrice: real,
    high24h: real,
    low24h: real,
    totalVolume: real)

  // ---------------------------------------------------------------------
  // The pair -> base dictionary
  // ---------------------------------------------------------------------

  /** The dictionary after visiting `metas` in order: a later entry overwrites an earlier one. */
  function SymbolInfo(metas: seq<SymbolMeta>): map<string, string>
  {
    if metas == [] then map[]
    else
      var last := metas[|metas| - 1];
      var m := SymbolInfo(metas[..|metas| - 1]);
      if IsUsdtPair(last) then m[last.symbol := last.baseAsset] else m
  }

  /** The `forEach` that fills `symbolInfo`. */
  method BuildSymbolInfo(metas: seq<SymbolMeta>) returns (info: map<string, string>)
    ensures info == SymbolInfo(metas)
  {
    info := map[];
    for i := 0 to |metas|
      invariant info == SymbolInfo(metas[..i])
    {
      assert metas[..i + 1][..i] == metas[..i];
      var s := metas[i];
      if EndsWith(s.symbol, Quote) {
        info := info[s.symbol := s.baseAsset];
      }
    }
    assert metas[..|metas|] == metas;
  }

  /** A pair is a key exactly when it ends in "USDT" and some instrument has that symbol. */
  lemma {:induction false} SymbolInfoKeys(metas: seq<SymbolMeta>, k: string)
    ensures k in SymbolInfo(metas) <==>
            EndsWith(k, Quote) && exists i :: 0 <= i < |metas| && metas[i].symbol == k
  {
    if metas != [] {
      var n := |metas| - 1;
      var front := metas[..n];
      SymbolInfoKeys(front, k);
      if EndsWith(k, Quote) && (exists i :: 0 <= i < |metas| && metas[i].symbol == k) && metas[n].symbol != k {
        var i :| 0 <= i < |metas| && metas[i].symbol == k;
        assert front[i].symbol == k;
      }
      if exists i :: 0 <= i < n && front[i].symbol == k {
        var i :| 0 <= i < n && front[i].symbol == k;
        assert metas[i].symbol == k;
      }
    }
  }

  /** A key maps to the base asset of the last instrument with that symbol. */
  lemma {:induction false} SymbolInfoLast(metas: seq<SymbolMeta>, k: string)
    requires k in SymbolInfo(metas)
    ensures exists i :: 0 <= i < |metas| && metas[i].symbol == k
                        && SymbolInfo(metas)[k] == metas[i].baseAsset
                        && forall j :: i < j < |metas| ==> metas[j].symbol != k
  {
    var n := |metas| - 1;
    var front := metas[..n];
    if metas[n].symbol == k && IsUsdtPair(metas[n]) {
      assert SymbolInfo(metas)[k] == metas[n].baseAsset;
    } else {
      assert k in SymbolInfo(front);
      SymbolInfoKeys(front, k);
      assert metas[n].symbol != k;
      SymbolInfoLast(front, k);
      var i :| 0 <= i < n && front[i].symbol == k && SymbolInfo(front)[k] == front[i].baseAsset
               && forall j :: i < j < n ==> front[j].symbol != k;
      assert metas[i] == front[i];
      assert SymbolInfo(metas)[k] == metas[i].baseAsset;
    }
  }

  /**
   * A pair is a key exactly when some USDT instrument has that symbol, and it
   * maps to the base asset of the last such instrument.
   */
  lemma SymbolInfoLookup(metas: seq<SymbolMeta>, k: string)
    ensures k in SymbolInfo(metas) <==>
            EndsWith(k, Quote) && exists i :: 0 <= i < |metas| && metas[i].symbol == k
    ensures k in SymbolInfo(metas) ==>
            exists i :: 0 <= i < |metas| && metas[i].symbol == k
                        && SymbolInfo(metas)[k] == metas[i].baseAsset
                        && forall j :: i < j < |metas| ==> metas[j].symbol != k
  {
    SymbolInfoKeys(metas, k);
    if k in SymbolInfo(metas) {
      SymbolInfoLast(metas, k);
    }
  }

  // ---------------------------------------------------------------------
  // Stable sort by volume, descending
  // ---------------------------------------------------------------------

  /** Insert `t` before the first element whose volume is not greater. */
  function InsertByVolume(t: Ticker, sorted: seq<Ticker>): seq<Ticker>
  {
    if sorted == [] || sorted[0].volume <= t.volume then [t] + sorted
    else [sorted[0]] + InsertByVolume(t, sorted[1..])
  }

  /** `.sort((a, b) => b.volume - a.volume)`, a stable sort. */
  function SortByVolume(s: seq<Ticker>): seq<Ticker>
  {
    if s == [] then [] else InsertByVolume(s[0], SortByVolume(s[1..]))
  }

  /** Volumes never increase along `s`. */
  ghost predicate DescendingByVolume(s: seq<Ticker>)
  {
    forall i, j :: 0 <= i < j < |s| ==> s[i].volume >= s[j].volume
  }

  /** The elements of `s` whose volume is `v`, in their order in `s`. */
  function WithVolume(s: seq<Ticker>, v: real): seq<Ticker>
  {
    if s == [] then [] else (if s[0].volume == v then [s[0]] else []) + WithVolume(s[1..], v)
  }

  lemma {:induction false} InsertByVolumeMultiset(t: Ticker, sorted: seq<Ticker>)
    ensures multiset(InsertByVolume(t, sorted)) == multiset(sorted) + multiset{t}
  {
    if !(sorted == [] || sorted[0].volume <= t.volume) {
      InsertByVolumeMultiset(t, sorted[1..]);
      assert sorted == [sorted[0]] + sorted[1..];
    }
  }

  /** A head no smaller than every element keeps a descending sequence descending. */
  lemma ConsDescending(x: Ticker, s: seq<Ticker>)
    requires DescendingByVolume(s)
    requires forall k :: 0 <= k < |s| ==> s[k].volume <= x.volume
    ensures DescendingByVolume([x] + s)
  {
    var r := [x] + s;
    forall i, j | 0 <= i < j < |r| ensures r[i].volume >= r[j].volume {
      assert r[j] == s[j - 1];
      if i > 0 {
        assert r[i] == s[i - 1];
      }
    }
  }

  /** Inserting keeps every element under a common bound. */
  lemma {:induction false} InsertByVolumeBounded(t: Ticker, s: seq<Ticker>, bound: real)
    requires t.volume <= bound
    requires forall k :: 0 <= k < |s| ==> s[k].volume <= bound
    ensures forall k :: 0 <= k < |InsertByVolume(t, s)| ==> InsertByVolume(t, s)[k].volume <= bound
  {
    if !(s == [] || s[0].volume <= t.volume) {
      InsertByVolumeBounded(t, s[1..], bound);
      var r := InsertByVolume(t, s);
      forall k | 0 <= k < |r| ensures r[k].volume <= bound {
        if k > 0 {
          assert r[k] == InsertByVolume(t, s[1..])[k - 1];
        }
      }
    }
  }

  lemma {:induction false} InsertByVolumeDescending(t: Ticker, sorted: seq<Ticker>)
    requires DescendingByVolume(sorted)
    ensures DescendingByVolume(InsertByVolume(t, sorted))
  {
    if sorted == [] || sorted[0].volume <= t.volume {
      forall k | 0 <= k < |sorted| ensures sorted[k].volume <= t.volume {
        if k > 0 {
          assert sorted[0].volume >= sorted[k].volume;
        }
      }
      ConsDescending(t, sorted);
    } else {
      var rest := sorted[1..];
      assert DescendingByVolume(rest) by {
        forall i, j | 0 <= i < j < |rest| ensures rest[i].volume >= rest[j].volume {
          assert rest[i] == sorted[i + 1] && rest[j] == sorted[j + 1];
        }
      }
      InsertByVolumeDescending(t, rest);
      forall k | 0 <= k < |rest| ensures rest[k].volume <= sorted[0].volume {
        assert rest[k] == sorted[k + 1];
      }
      InsertByVolumeBounded(t, rest, sorted[0].volume);
      ConsDescending(sorted[0], InsertByVolume(t, rest));
    }
  }

  lemma {:induction false} InsertByVolumeStable(t: Ticker, sorted: seq<Ticker>, v: real)
    ensures WithVolume(InsertByVolume(t, sorted), v) == (if t.volume == v then [t] else []) + WithVolume(sorted, v)
  {
    var r := InsertByVolume(t, sorted);
    var mine := if t.volume == v then [t] else [];
    if sorted == [] || sorted[0].volume <= t.volume {
      assert r[0] == t && r[1..] == sorted;
      assert WithVolume(r, v) == mine + WithVolume(sorted, v);
    } else {
      var rest := InsertByVolume(t, sorted[1..]);
      InsertByVolumeStable(t, sorted[1..], v);
      assert r[0] == sorted[0] && r[1..] == rest;
      var head := if sorted[0].volume == v then [sorted[0]] else [];
      // `t` and the head have different volumes, so at most one of them is kept.
      assert head == [] || mine == [];
      calc {
        WithVolume(r, v);
        head + WithVolume(rest, v);
        head + (mine + WithVolume(sorted[1..], v));
        mine + (head + WithVolume(sorted[1..], v));
        mine + WithVolume(sorted, v);
      }
    }
  }

  /** The sort is a permutation of its input. */
  lemma {:induction false} SortByVolumePermutes(s: seq<Ticker>)
    ensures multiset(SortByVolume(s)) == multiset(s)
  {
    if s != [] {
      SortByVolumePermutes(s[1..]);
      InsertByVolumeMultiset(s[0], SortByVolume(s[1..]));
      assert s == [s[0]] + s[1..];
    }
  }

  /** The sort orders by volume, descending. */
  lemma {:induction false} SortByVolumeDescending(s: seq<Ticker>)
    ensures DescendingByVolume(SortByVolume(s))
  {
    if s != [] {
      SortByVolumeDescending(s[1..]);
      InsertByVolumeDescending(s[0], SortByVolume(s[1..]));
    }
  }

  /** The sort is stable: the tickers of any one volume keep their upstream order. */
  lemma {:induction false} SortByVolumeStable(s: seq<Ticker>, v: real)
    ensures WithVolume(SortByVolume(s), v) == WithVolume(s, v)
  {
    if s != [] {
      SortByVolumeStable(s[1..], v);
      InsertByVolumeStable(s[0], SortByVolume(s[1..]), v);
    }
  }

  /**
   * The sort orders by volume descending, is a permutation, and is stable:
   * for every volume, the tickers with that volume keep their upstream order.
   */
  lemma SortByVolumeCorrect(s: seq<Ticker>)
    ensures multiset(SortByVolume(s)) == multiset(s)
    ensures DescendingByVolume(SortByVolume(s))
    ensures forall v :: WithVolume(SortByVolume(s), v) == WithVolume(s, v)
  {
    SortByVolumePermutes(s);
    SortByVolumeDescending(s);
    forall v ensures WithVolume(SortByVolume(s), v) == WithVolume(s, v) {
      SortByVolumeStable(s, v);
    }
  }

  // ---------------------------------------------------------------------
  // Selection and enrichment
  // ---------------------------------------------------------------------

  /** The USDT tickers, in upstream order. */
  function UsdtTickers(tickers: seq<Ticker>): seq<Ticker>
  {
    Filter(tickers, IsUsdtTicker)
  }

  /** `.filter(USDT).sort(by volume desc).slice(0, 10)` */
  function TopByVolume(tickers: seq<Ticker>): seq<Ticker>
  {
    Take(SortByVolume(UsdtTickers(tickers)), TopCount)
  }

  /** The selection holds min(10, n) of the USDT tickers, in descending order of volume. */
  lemma TopByVolumeSpec(tickers: seq<Ticker>)
    ensures |TopByVolume(tickers)| == if |UsdtTickers(tickers)| < TopCount then |UsdtTickers(tickers)| else TopCount
    ensures forall x :: x in TopByVolume(tickers) ==> x in tickers && IsUsdtTicker(x)
    ensures DescendingByVolume(TopByVolume(tickers))
    ensures |UsdtTickers(tickers)| <= TopCount ==> multiset(TopByVolume(tickers)) == multiset(UsdtTickers(tickers))
  {
    var u := UsdtTickers(tickers);
    var sorted := SortByVolume(u);
    SortByVolumeCorrect(u);
    assert |sorted| == |u| by { assert |multiset(sorted)| == |multiset(u)|; }
    forall x | x in TopByVolume(tickers) ensures x in tickers && IsUsdtTicker(x) {
      assert x in multiset(sorted);
    }
  }

  /**
   * The selection is the head of the stably sorted USDT tickers, so it
   * repeats no ticker more often than the input holds it.
   */
  lemma TopByVolumeSortedPrefix(tickers: seq<Ticker>)
    ensures TopByVolume(tickers) == SortByVolume(UsdtTickers(tickers))[..|TopByVolume(tickers)|]
    ensures multiset(TopByVolume(tickers)) <= multiset(UsdtTickers(tickers))
  {
    var u := UsdtTickers(tickers);
    var sorted := SortByVolume(u);
    var top := TopByVolume(tickers);
    SortByVolumePermutes(u);
    assert sorted == top + sorted[|top|..];
    assert multiset(sorted) == multiset(top) + multiset(sorted[|top|..]);
  }

  /** No USDT ticker left out of the selection has a larger volume than one kept. */
  lemma TopByVolumeLargest(tickers: seq<Ticker>)
    ensures forall i, x :: 0 <= i < |TopByVolume(tickers)| && x in UsdtTickers(tickers) && x !in TopByVolume(tickers)
                           ==> TopByVolume(tickers)[i].volume >= x.volume
  {
    var u := UsdtTickers(tickers);
    var sorted := SortByVolume(u);
    var top := TopByVolume(tickers);
    SortByVolumeCorrect(u);
    forall i, x | 0 <= i < |top| && x in u && x !in top ensures top[i].volume >= x.volume {
      assert x in multiset(sorted);
      var k :| 0 <= k < |sorted| && sorted[k] == x;
      assert top[i] == sorted[i];
    }
  }

  /** `symbolInfo[c.symbol] || c.symbol.replace('USDT', '')` */
  function BaseOf(pair: string, info: map<string, string>): string
  {
    if pair in info && info[pair] != "" then info[pair] else StripQuote(pair)
  }

  /** `img || placeholder` */
  function ImageOrPlaceholder(img: Option<string>): (r: string)
    ensures r != ""
    ensures r == PlaceholderImage || img == Some(r)
  {
    if TruthyStr(img) then img.value else PlaceholderImage
  }

  /** The record built for the ticker at position `idx` of the selection. */
  function RankCoin(c: Ticker, idx: nat, info: map<string, string>, imageOf: string -> Option<string>): RankedCoin
  {
    var base := BaseOf(c.symbol, info);
    RankedCoin(idx + 1, base, base, ImageOrPlaceholder(imageOf(base)),
               c.lastPrice, c.highPrice, c.lowPrice, c.volume)
  }

  /** `top.map((c, idx) => ...)`; `imageOf` is what `getCoinImageUrl` resolves for each base. */
  function Enrich(top: seq<Ticker>, info: map<string, string>, imageOf: string -> Option<string>): seq<RankedCoin>
  {
    seq(|top|, i requires 0 <= i < |top| => RankCoin(top[i], i, info, imageOf))
  }

  /** The output record `r` was built from ticker `t`. */
  ghost predicate BuiltFrom(r: RankedCoin, t: Ticker, info: map<string, string>, imageOf: string -> Option<string>)
  {
    && r.symbol == BaseOf(t.symbol, info)
    && r.name == r.symbol
    && r.currentPrice == t.lastPrice && r.high24h == t.highPrice
    && r.low24h == t.lowPrice && r.totalVolume == t.volume
    && r.image != ""
    && (r.image == PlaceholderImage || imageOf(r.symbol) == Some(r.image))
  }

  /**
   * The ranked output: ranks are exactly 1..n in order, n = min(10, #USDT
   * tickers), each record comes from a USDT ticker, volumes never increase,
   * and a missing image becomes the placeholder.
   */
  lemma RankedOutputSpec(tickers: seq<Ticker>, metas: seq<SymbolMeta>, imageOf: string -> Option<string>)
    ensures var out := Enrich(TopByVolume(tickers), SymbolInfo(metas), imageOf);
            && |out| == (if |UsdtTickers(tickers)| < TopCount then |UsdtTickers(tickers)| else TopCount)
            && (forall i :: 0 <= i < |out| ==> out[i].rank == i + 1)
            && (forall i :: 0 <= i < |out| ==>
                  exists t :: t in tickers && IsUsdtTicker(t) && BuiltFrom(out[i], t, SymbolInfo(metas), imageOf))
            && (forall i, j :: 0 <= i < j < |out| ==> out[i].totalVolume >= out[j].totalVolume)
  {
    var top := TopByVolume(tickers);
    var out := Enrich(top, SymbolInfo(metas), imageOf);
    TopByVolumeSpec(tickers);
    forall i | 0 <= i < |out|
      ensures exists t :: t in tickers && IsUsdtTicker(t) && BuiltFrom(out[i], t, SymbolInfo(metas), imageOf)
    {
      assert top[i] in top;
      assert BuiltFrom(out[i], top[i], SymbolInfo(metas), imageOf);
    }
  }

  /** The route handler; both upstream calls are made together (`Promise.all`). */
  method Top10VolumeRoute(tickReply: Reply<seq<Ticker>>, infoReply: Reply<seq<SymbolMeta>>,
                          imageOf: string -> Option<string>)
    returns (resp: Response<seq<RankedCoin>>)
    ensures tickReply.Fail? || infoReply.Fail? ==>
              resp == Error(500, "Failed to fetch top 10 volume coins")
    ensures tickReply.Ok? && infoReply.Ok? ==>
              resp == Json(200, Enrich(TopByVolume(tickReply.data), SymbolInfo(infoReply.data), imageOf))
  {
    if tickReply.Fail? || infoReply.Fail? {
      return Error(500, "Failed to fetch top 10 volume coins");
    }
    var info := BuildSymbolInfo(infoReply.data);
    var top := TopByVolume(tickReply.data);
    resp := Json(200, Enrich(top, info, imageOf));
  }
}
