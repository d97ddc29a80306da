/**
 * `fetchNews`: fills in default query parameters, picks the NewsAPI
 * endpoint, and either returns the reply's data or throws an error naming
 * the failure. The NewsAPI client is the oracle `upstream(endpoint, params)`.
 */
module NewsService {
  import opened JsValues
  import opened Http

  const DefaultPageSize: int := 10
  const DefaultPage: int := 1
  const DefaultCountry: string := "us"
  const Everything: string := "/everything"
  const TopHeadlines: string := "/top-headlines"
  const FailurePrefix: string := "Failed to fetch news: "

  /** The caller's `options`; absent fields are `None`. */
  datatype NewsOptions = NewsOptions(
    q: Option<string>,
    category: Option<string>,
    country: Option<string>,
    pageSize: Option<int>,
    page: Option<int>)

  /** The `params` object sent to NewsAPI; `None` fields are not sent. */
  datatype NewsParams = NewsParams(
    pageSize: int,
    page: int,
    country: string,
    q: Option<string>,
    category: Option<string>)

  /** What `fetchNews` settles with. */
  datatype NewsOutcome<+D> = News(data: D) | Thrown(message: string)

  /**
   * The parameters `fetchNews` sends: falsy sizes, pages and countries take
   * their defaults; `q` and `category` are sent only when truthy.
   */
  function DefaultedParams(o: NewsOptions): (p: NewsParams)
    ensures p.pageSize == (if TruthyInt(o.pageSize) then o.pageSize.value else DefaultPageSize)
    ensures p.page == (if TruthyInt(o.page) then o.page.value else DefaultPage)
    ensures p.country == (if TruthyStr(o.country) then o.country.value else DefaultCountry)
    ensures p.q.Some? <==> TruthyStr(o.q)
    ensures p.q.Some? ==> p.q == o.q
    ensures p.category.Some? <==> TruthyStr(o.category)
    ensures p.category.Some? ==> p.category == o.category
  {
    NewsParams(IntOr(o.pageSize, DefaultPageSize), IntOr(o.page, DefaultPage), StrOr(o.country, DefaultCountry),
               if TruthyStr(o.q) then o.q else None,
               if TruthyStr(o.category) then o.category else None)
  }

  /** `(options.q || options.category) ? "/everything" : "/top-headlines"` */
  function Endpoint(o: NewsOptions): (e: string)
    ensures e == Everything || e == TopHeadlines
    ensures e == Everything <==> TruthyStr(o.q) || TruthyStr(o.category)
  {
    if TruthyStr(o.q) || TruthyStr(o.category) then Everything else TopHeadlines
  }

  /** Searching and filtering go to "/everything", plain headlines elsewhere. */
  lemma EndpointMatchesParams(o: NewsOptions)
    ensures Endpoint(o) == Everything <==> DefaultedParams(o).q.Some? || DefaultedParams(o).category.Some?
    ensures Endpoint(o) == TopHeadlines ==> DefaultedParams(o).q == None && DefaultedParams(o).category == None
  {
  }

  /** `error.response?.data?.message || error.message`, after the fixed prefix. */
  function FailureMessage(bodyMessage: Option<string>, message: string): (m: string)
    ensures |m| >= |FailurePrefix| && m[..|FailurePrefix|] == FailurePrefix
    ensures m[|FailurePrefix|..] == StrOr(bodyMessage, message)
  {
    FailurePrefix + StrOr(bodyMessage, message)
  }

  /** Builds `params` field by field, as the source does, then makes the one request. */
  method FetchNews<D>(o: NewsOptions, upstream: (string, NewsParams) -> Reply<D>)
    returns (r: NewsOutcome<D>, endpoint: string, params: NewsParams)
    ensures params == DefaultedParams(o) && endpoint == Endpoint(o)
    ensures upstream(endpoint, params).Ok? ==> r == News(upstream(endpoint, params).data)
    ensures upstream(endpoint, params).Fail? ==>
              r == Thrown(FailureMessage(upstream(endpoint, params).bodyMessage, upstream(endpoint, params).message))
  {
    params := NewsParams(IntOr(o.pageSize, DefaultPageSize), IntOr(o.page, DefaultPage),
                         StrOr(o.country, DefaultCountry), None, None);
    if TruthyStr(o.q) {
      params := params.(q := o.q);
    }
    if TruthyStr(o.category) {
      params := params.(category := o.category);
    }
    endpoint := if TruthyStr(o.q) || TruthyStr(o.category) then Everything else TopHeadlines;
    var reply := upstream(endpoint, params);
    match reply {
      case Ok(d) => r := News(d);
      case Fail(_, bm, m) => r := Thrown(FailurePrefix + StrOr(bm, m));
    }
  }
}
