# Crypto tracker market-data core in Dafny

This project models the core of a cryptocurrency tracker. It has an
Express backend that relays market data from an exchange (Binance) and an
image search service (CoinGecko), and a React front end that polls it. The
model covers the following:

- The backend's upstream client. `fetchWithRetry` makes a bounded number of
  attempts and waits after each 429 reply.
- The top-10-by-volume ranking. It joins the 24-hour tickers with the
  instrument metadata, sorts stably by volume, keeps ten and enriches each
  with an image URL (cached, with a placeholder fallback).
- The same-day price history, which is cached under a per-day key.
- The candlestick, price-lookup and coin-search routes.
- The news-parameter defaults.
- The `Authorization: Bearer` middleware.
- The favorites and users tables behind the favorites, register and login
  routes.
- On the client: the price-polling queue, the symbol-search hook and its
  ten-minute cache, the favorites and auth contexts, and the chart page's
  zoom and live-append logic.

Pure code is modelled as functions with lemmas. Code that changes state step
by step is modelled as classes with `modifies` clauses:

- the shared cache;
- the database tables;
- each React hook's or context's state and storage keys;
- the chart page's state.

Loops are modelled as methods with invariants (the symbol dictionary and the
retry loop). Each class method is one event: a handler call, a timer firing,
a promise settling or an effect running.

The outside world comes in as parameters. This covers the exchange's and
NewsAPI's replies, the image lookups, the clock, date parsing, the password
hasher, the JWT signer and verifier, and whether a database query throws. An
exchange reply is `Ok(data)` or `Fail(status, bodyMessage, message)`.
`parseFloat` values are kept as `real`. A kline cell that a row lacks is
`NaN`.

Some behaviours of the code are easy to miss; the model keeps them as
written:

- The cache call sites pass no TTL, and the cache module is not part of this model, so the model's caches never expire.
- The image lookups of the top-ten route all start at once, with no limit on how many run together.
- The candlestick route passes `end < start` on to the exchange unchecked.
- The price poller has no sequence numbers. A task queued for an earlier
  symbol still publishes after the symbol changes. Cleanup leaves the queue
  and the processing flag as they are.
- Each settled price task stores a new follow-up timer id over the previous
  one without clearing it, and cleanup clears only the latest. Earlier
  follow-up timers survive unmount and can still start a queued task.
- Every rate-limited symbol search schedules its own retry, and nothing
  cancels one. Retries pile up and each one re-runs the search for the term
  it was scheduled with.

## Model

| member | source | states |
|---|---|---|
| Top10Volume.BuildSymbolInfo | backend/src/routes/top10Volume.js:13-16 | the `forEach` loop builds exactly the fold `SymbolInfo` of the metadata list |
| Top10Volume.SymbolInfoLookup | backend/src/routes/top10Volume.js:13-16 | a pair is a key iff it ends in "USDT" and some instrument has it; its value is the base asset of the last such instrument |
| Top10Volume.SortByVolumeCorrect | backend/src/routes/top10Volume.js:20 | the volume sort is a permutation, non-increasing in volume, and stable: tickers of equal volume keep their upstream order |
| Top10Volume.TopByVolumeSpec | backend/src/routes/top10Volume.js:18-21 | the selection has min(10, #USDT tickers) elements, all USDT tickers from the input, in descending volume; with at most 10 USDT tickers all are kept |
| Top10Volume.TopByVolumeSortedPrefix | backend/src/routes/top10Volume.js:18-21 | the selection is a prefix of the stably sorted USDT tickers and a sub-multiset of them, so no ticker is repeated beyond its input count |
| Top10Volume.TopByVolumeLargest | backend/src/routes/top10Volume.js:18-21 | no USDT ticker left out has a larger volume than any ticker kept |
| Top10Volume.ImageOrPlaceholder | backend/src/routes/top10Volume.js:30 | the image is never empty: the looked-up URL when it is non-empty, else the placeholder URL |
| Top10Volume.RankedOutputSpec | backend/src/routes/top10Volume.js:23-36 | ranks are exactly 1..n in order; each record comes from a USDT ticker, with symbol = name = base, the ticker's prices and volume, and a non-empty image; volumes are non-increasing |
| Top10Volume.Top10VolumeRoute | backend/src/routes/top10Volume.js:6-43 | a failure of either upstream call gives 500 "Failed to fetch top 10 volume coins"; otherwise 200 with the enriched top ten |
| BinanceService.ApiPath | backend/src/services/binanceService.js:10 | the request path is "/api/v3" followed by the endpoint |
| BinanceService.FetchWithRetry | backend/src/services/binanceService.js:7-17 | the attempt loop yields exactly the outcome and attempt count of `RetryFrom`; the total delay is one `delayMs` per 429 that was retried |
| BinanceService.RetryOutcome | backend/src/services/binanceService.js:8-16 | at most `retries` calls (none when `retries <= 0`); every call but the last got 429; a success returns that reply's data unchanged; a non-429 error is rethrown at once; exhaustion happens after exactly `retries` calls |
| BinanceService.AllRateLimited | backend/src/services/binanceService.js:7-16 | when every reply is 429, exactly `retries` calls are made and "Max retries exceeded" follows |
| BinanceService.ThreeRateLimitsThenSuccess | backend/src/services/binanceService.js:7-16 | with the default of three attempts, three 429s followed by a success still end in "Max retries exceeded" |
| CacheStore.Cache.Get | backend/src/routes/coinHistory.js:16 | a lookup returns the stored value for a present key and nothing for an absent one |
| CacheStore.Cache.Set | backend/src/routes/coinHistory.js:31 | a store overwrites exactly one key and leaves all others |
| CoingeckoService.ImageKey | backend/src/services/coingeckoService.js:7 | the cache key is "image_" followed by the symbol |
| CoingeckoService.FirstMatchIndex | backend/src/services/coingeckoService.js:17 | `find` stops at the first hit whose symbol equals the query case-insensitively, and none before it matches |
| CoingeckoService.ChosenImageSpec | backend/src/services/coingeckoService.js:17-18 | the first matching hit decides: its truthy `large` URL is the result and a falsy one gives null; a URL, when present, is that non-empty `large`; no match gives null |
| CoingeckoService.ChosenImageIgnoresCase | backend/src/services/coingeckoService.js:17 | the chosen URL depends only on the lower-cased query |
| CoingeckoService.GetCoinImageUrl | backend/src/services/coingeckoService.js:6-24 | a truthy cached URL is returned with no search and no cache change; otherwise the search decides; the cache is written only with a non-null URL; a failed search gives null and leaves the cache unchanged |
| Klines.Cell | backend/src/routes/coinCandlestick.js:24-28 | a cell is the row's value at that position, or NaN when the row is too short |
| Klines.MapRows | backend/src/routes/coinCandlestick.js:22-29 | the kline mapping keeps the rows' length and order and fails exactly when some row has no open time |
| Klines.PairOf | backend/src/routes/coinCandlestick.js:16 | the upstream pair is the upper-cased symbol followed by "USDT" |
| CoinHistory.HistoryKeyInjective | backend/src/routes/coinHistory.js:11-15 | the cache key determines the symbol and the start-of-day time |
| CoinHistory.PointOf | backend/src/routes/coinHistory.js:26-29 | a point takes its time from cell 0 and its price from cell 4 |
| CoinHistory.HistoryPoints | backend/src/routes/coinHistory.js:26-29 | one point per row, in row order, time from cell 0 and price from cell 4 |
| CoinHistory.CoinHistoryRoute | backend/src/routes/coinHistory.js:6-36 | a missing symbol gives 400 with no cache access or upstream call; a hit returns the cached series with no upstream call; a miss makes one retried request for upper-case symbol + "USDT" at "5m" from the day start to now; success stores and returns the same series; failure gives 500 and caches nothing |
| CoinHistory.SecondRequestIsCached | backend/src/routes/coinHistory.js:15-32 | a second same-day request for a symbol whose first request succeeded is answered from the cache with the identical series and no upstream call |
| CoinCandlestick.CandleOf | backend/src/routes/coinCandlestick.js:22-29 | fields map by position: time 0, open 1, high 2, low 3, close 4, volume 5 |
| CoinCandlestick.Candles | backend/src/routes/coinCandlestick.js:22-29 | one candle per row, in row order, with the positional fields |
| CoinCandlestick.CandlestickRoute | backend/src/routes/coinCandlestick.js:5-36 | any of symbol/start/end/interval missing gives 400 with no upstream call; otherwise one retried request for upper-case symbol + "USDT" with the given interval and parsed times; success gives 200 with the candles, any failure 500 |
| CoinsPrices.RequestedSymbols | backend/src/routes/coinsPrices.js:10 | the requested list is the comma-split input, upper-cased piece by piece |
| CoinsPrices.RequestedCount | backend/src/routes/coinsPrices.js:10 | there is one requested symbol per comma plus one |
| CoinsPrices.RequestedRoundTrip | backend/src/routes/coinsPrices.js:10 | comma-joined upper-case symbols are read back unchanged |
| CoinsPrices.QuoteOf | backend/src/routes/coinsPrices.js:15-20 | a quote's symbol is the pair with its first "USDT" removed; price and change come from the ticker; the time is the current time |
| CoinsPrices.PriceQuotes | backend/src/routes/coinsPrices.js:13-20 | one quote per matching ticker, in upstream order |
| CoinsPrices.PriceQuotesSpec | backend/src/routes/coinsPrices.js:13-20 | every quote names a requested symbol and comes from an input ticker; every ticker whose stripped pair is requested yields its quote |
| CoinsPrices.UnlistedSymbolAbsent | backend/src/routes/coinsPrices.js:14 | a requested symbol that no ticker strips to is absent from the output |
| CoinsPrices.PriceQuotesIgnoreDuplicates | backend/src/routes/coinsPrices.js:13-14 | only the set of requested symbols matters, so a repeated request adds no output |
| CoinsPrices.CoinsPricesRoute | backend/src/routes/coinsPrices.js:5-27 | a missing `symbols` gives 400 with no upstream call; an upstream failure gives 500; otherwise 200 with the quotes |
| SearchCoins.Candidates | backend/src/routes/searchCoins.js:12-14 | the candidates are the instruments whose pair ends in "USDT", projected to pair and base, in order |
| SearchCoins.SearchResults | backend/src/routes/searchCoins.js:16-22 | the first min(10, #matches) matching candidates, in order, each with symbol = name = base and a null image |
| SearchCoins.SearchResultsSpec | backend/src/routes/searchCoins.js:12-22 | at most 10 results; each comes from a USDT instrument whose lower-cased base starts with, or whose lower-cased pair contains, the lower-cased query; with at most 10 matches all are returned |
| SearchCoins.SearchIgnoresQueryCase | backend/src/routes/searchCoins.js:17-20 | the results depend only on the lower-cased query |
| SearchCoins.SearchCoinsRoute | backend/src/routes/searchCoins.js:5-29 | a missing query gives 400 with no upstream call; an upstream failure gives 500; otherwise 200 with the results |
| NewsService.DefaultedParams | backend/src/services/newsService.js:30-36 | pageSize, page and country default to 10, 1 and "us" when falsy; `q` and `category` are sent only when truthy |
| NewsService.Endpoint | backend/src/services/newsService.js:39 | the endpoint is "/everything" iff `q` or `category` is truthy, else "/top-headlines" |
| NewsService.EndpointMatchesParams | backend/src/services/newsService.js:35-39 | "/everything" is chosen exactly when `q` or `category` is sent |
| NewsService.FailureMessage | backend/src/services/newsService.js:48 | the thrown message is "Failed to fetch news: " followed by the body's message, or else the error's own |
| NewsService.FetchNews | backend/src/services/newsService.js:29-50 | the parameters built field by field are the defaulted ones; the data of a successful reply is returned unchanged; a failure throws the prefixed message |
| AuthMiddleware.ParseHeader | backend/src/middlewares/authMiddleware.js:17-27 | a falsy header is missing; otherwise it must split on " " into exactly `["Bearer", token]` |
| AuthMiddleware.BearerFormat | backend/src/middlewares/authMiddleware.js:22-27 | a header yields token `t` iff it is exactly "Bearer " followed by a space-free `t` (case-sensitive) |
| AuthMiddleware.Decide | backend/src/middlewares/authMiddleware.js:12-40 | missing header, bad format and failed verification each give 401 with their own message; the request passes iff the token verifies, with `req.user` the decoded user |
| AuthMiddleware.Exchange.Authenticate | backend/src/middlewares/authMiddleware.js:12-40 | on success `req.user` is set and `next` is called exactly once; on a 401 neither happens |
| FavoritesRoute.SymbolsOf | backend/src/routes/favorites.js:12-18 | the listed symbols are exactly those of the user's rows |
| FavoritesRoute.Remaining | backend/src/routes/favorites.js:74-77 | the delete removes the (user, symbol) row and keeps every other row |
| FavoritesRoute.SymbolsOfAppend | backend/src/routes/favorites.js:50-53 | an insert appends the symbol to that user's list and leaves other users' lists alone |
| FavoritesRoute.RemoveKeepsOtherUsers | backend/src/routes/favorites.js:74-77 | a delete never changes another user's list |
| FavoritesRoute.FavoritesTable.List | backend/src/routes/favorites.js:9-25 | GET returns exactly the user's symbols, or 500 when the query throws |
| FavoritesRoute.FavoritesTable.Add | backend/src/routes/favorites.js:30-64 | a missing symbol gives 400 and no change; an existing pair gives 400 and no change; a new pair is appended with 201; insert errors give 400 (duplicate entry) or 500 with no change; pairs stay unique |
| FavoritesRoute.FavoritesTable.Remove | backend/src/routes/favorites.js:69-88 | an absent pair gives 404 and no change; otherwise only that row goes, with 200; a throwing query gives 500 |
| AuthRoute.FirstWithEmail | backend/src/routes/auth.js:70-79 | the user found is the first one with that email, or none when no user has it |
| AuthRoute.ClaimOf | backend/src/routes/auth.js:90-96 | the token payload and the reply carry the user's id, username and email |
| AuthRoute.Login | backend/src/routes/auth.js:57-119 | a missing email or password gives 400; an unknown email and a wrong password both give 401 "Invalid email or password."; a missing secret gives 500; success gives 200 with the user's public fields and a token signed over them |
| AuthRoute.UsersTable.Register | backend/src/routes/auth.js:11-54 | missing fields give 400; a taken username or email gives 409; otherwise one row with the hashed password is inserted with 201 and its id; nothing is inserted on any error; ids, usernames and emails stay unique |
| AuthRoute.LoginAfterRegister | backend/src/routes/auth.js:70-109 | a user just inserted can log in with a password that matches the stored hash |
| AuthRoute.LoginHidesWhichCheckFailed | backend/src/routes/auth.js:75-86 | an unknown email and a wrong password produce the identical 401 reply |
| AuthRoute.FoundByEmail | backend/src/routes/auth.js:70-79 | with unique emails, looking up a user's email finds exactly that user |
| RealtimeCoinPrice.Settle | crypto-tracker/src/hooks/useRealtimeCoinPrice.js:48-57 | a non-empty reply gives the first element's price, change and reformatted time; an empty one rejects with "No data found for " + symbol; an error is passed on |
| RealtimeCoinPrice.FirstSettled | crypto-tracker/src/hooks/useRealtimeCoinPrice.js:58-62 | the attempt that settles the task is the first reply that is not a 429; every reply before it is a 429 |
| RealtimeCoinPrice.FetchPrice | crypto-tracker/src/hooks/useRealtimeCoinPrice.js:42-67 | a rejected price task never carries a 429 status |
| RealtimeCoinPrice.FetchPriceSpec | crypto-tracker/src/hooks/useRealtimeCoinPrice.js:42-67 | the fetch settles on the first reply that is not a 429, with the outcome that reply gives, after waiting 1 s for each 429 before it; while every reply is a 429 it keeps retrying |
| RealtimeCoinPrice.StoredError | crypto-tracker/src/hooks/useRealtimeCoinPrice.js:29-33 | a 429 is stored as the fixed rate-limit message, any other error as it is |
| RealtimeCoinPrice.QueueNeverSeesRateLimit | crypto-tracker/src/hooks/useRealtimeCoinPrice.js:29-62 | a rejected price task's error is always stored as it is |
| RealtimeCoinPrice.PricePoller.constructor | crypto-tracker/src/hooks/useRealtimeCoinPrice.js:5-84 | mounting resets priceData/error, sets loading, schedules one debounced call and starts the interval; no follow-up timer is pending |
| RealtimeCoinPrice.PricePoller.ProcessQueue | crypto-tracker/src/hooks/useRealtimeCoinPrice.js:14-18 | a no-op when busy or when the queue is empty; otherwise the head task starts, processing becomes true and nothing else changes |
| RealtimeCoinPrice.PricePoller.DebounceFire | crypto-tracker/src/hooks/useRealtimeCoinPrice.js:69-75 | a pending debounced call enqueues exactly one fetch for the current symbol and runs `processQueue`: when idle the queue head starts with a fresh, unaborted controller, when busy the controller is kept; symbol, interval, timers and published state are kept; with no call pending nothing happens |
| RealtimeCoinPrice.PricePoller.IntervalTick | crypto-tracker/src/hooks/useRealtimeCoinPrice.js:84 | an active interval tick only (re)arms the debounce; queue, task, controller, timers, interval and published state are kept; a cleared interval does nothing |
| RealtimeCoinPrice.PricePoller.Complete | crypto-tracker/src/hooks/useRealtimeCoinPrice.js:20-39 | success publishes the result and clears the error; an AbortError changes neither; other errors are stored; loading and processing end and a follow-up timer is scheduled into the timeout slot; a timer already in the slot is not cleared and becomes orphaned; queue, symbol, controller, debounce and interval are kept |
| RealtimeCoinPrice.PricePoller.TimeoutFire | crypto-tracker/src/hooks/useRealtimeCoinPrice.js:38 | a pending follow-up timer, the latest or an orphaned one, fires once and runs `processQueue`: when idle the queue head starts with a fresh, unaborted controller, otherwise task and controller are kept; symbol, interval, debounce and published state are kept; with none of that kind pending nothing happens |
| RealtimeCoinPrice.PricePoller.Cleanup | crypto-tracker/src/hooks/useRealtimeCoinPrice.js:86-95 | cleanup stops the interval, aborts the current fetch (an abort is requested iff a controller exists or one was already requested), and cancels the latest follow-up timer and the debounce; orphaned follow-up timers, the controller, the queue, the running task and the published state are kept |
| RealtimeCoinPrice.PricePoller.ChangeSymbol | crypto-tracker/src/hooks/useRealtimeCoinPrice.js:77-96 | a symbol change runs the cleanup, so the current fetch is aborted and orphaned timers survive, then resets priceData/loading/error and restarts the debounce and interval for the new symbol; queue and running task are kept |
| RealtimeCoinPrice.PricePoller.Publish | crypto-tracker/src/hooks/useRealtimeCoinPrice.js:20-34 | a result is published and the error cleared; an AbortError leaves both; any other rejection stores `StoredError` and keeps the price |
| RealtimeCoinPrice.UnmountAbortsFetch | crypto-tracker/src/hooks/useRealtimeCoinPrice.js:42-95 | unmounting while the first fetch is awaited requests its abort, with interval, debounce and timer all cleared |
| RealtimeCoinPrice.TaskStartsAfterUnmount | crypto-tracker/src/hooks/useRealtimeCoinPrice.js:35-95 | after two settled tasks and an unmount, with interval, debounce and latest timer all cleared, the orphaned first follow-up timer still starts a queued fetch |
| SearchCoinsHook.UsdtEntries | crypto-tracker/src/hooks/useSearchCoins.js:33-38 | only instruments quoted in USDT are kept, projected to {symbol: base, pair}, in order |
| SearchCoinsHook.FilterCoins | crypto-tracker/src/hooks/useSearchCoins.js:42-44 | at most 10 entries, in order, each a cached entry whose lower-cased base contains the lower-cased term |
| SearchCoinsHook.SymbolSearch.FetchCoins | crypto-tracker/src/hooks/useSearchCoins.js:14-57 | an empty term only clears the results; a fresh cache is used with no request; a refetch replaces the cache with the projected data stamped now; a 429 stores the rate-limit message and appends a retry for the term to the pending retries; other errors are stored as they are; only projected USDT data is ever cached |
| SearchCoinsHook.SymbolSearch.RetryFire | crypto-tracker/src/hooks/useSearchCoins.js:50 | the earliest pending retry leaves the queue and runs `fetchCoins` again for the term it was scheduled with, whatever the current term, with every branch of `fetchCoins` stated: an empty term clears the results only, a fresh cache is used and kept, a refetch replaces the cache, a failure keeps results and cache and a new 429 queues the term again at the end; later retries stay pending |
| FavoriteContext.RemoveDeletesOne | crypto-tracker/src/context/FavoriteContext.js:110 | removing from a duplicate-free list deletes the symbol's one occurrence and keeps the rest in order |
| FavoriteContext.FavoritesStore.constructor | crypto-tracker/src/context/FavoriteContext.js:13-16 | the provider mounts with an empty list, not loading and no error, over whatever duplicate-free list storage already holds |
| FavoriteContext.FavoritesStore.IsFavorite | crypto-tracker/src/context/FavoriteContext.js:142 | `isFavorite(s)` holds iff `s` is in the list |
| FavoriteContext.FavoritesStore.Fetch | crypto-tracker/src/context/FavoriteContext.js:31-60 | signed out, the list is emptied; signed in, it becomes the stored list (or empty) |
| FavoriteContext.FavoritesStore.Add | crypto-tracker/src/context/FavoriteContext.js:63-91 | a no-op when signed out or already present; otherwise the symbol is appended and storage equals the new list; the list stays duplicate-free |
| FavoriteContext.FavoritesStore.Remove | crypto-tracker/src/context/FavoriteContext.js:94-122 | a no-op when signed out or absent; otherwise the symbol is filtered out and storage equals the new list |
| FavoriteContext.FavoritesStore.AuthChanged | crypto-tracker/src/context/FavoriteContext.js:125-132 | losing authentication clears the list and removes the storage key; gaining it with a token refetches the stored list and ends not loading and without error; without a token the list is emptied and loading and error are kept |
| AuthContext.LooksLikeJwtDots | crypto-tracker/src/context/AuthContext.js:42 | a token has three '.'-separated parts iff it has exactly two dots |
| AuthContext.Cleared | crypto-tracker/src/context/AuthContext.js:27-32 | clearing removes both keys and nulls token and user |
| AuthContext.FirstRender | crypto-tracker/src/context/AuthContext.js:12-13 | the first render reads the token from storage and leaves the user null |
| AuthContext.InitialSession | crypto-tracker/src/context/AuthContext.js:35-55 | with both keys present, a JWT-shaped token and a parsable user are adopted and anything else is cleared; with a key missing nothing changes |
| AuthContext.LoneTokenStaysSignedIn | crypto-tracker/src/context/AuthContext.js:13-38 | a stored token without a stored user survives the check: signed in, with no user and a token that is not JWT-shaped |
| AuthContext.IntendedInitialSession | crypto-tracker/src/context/AuthContext.js:38-53 | the check with incomplete storage nulling the token and user |
| AuthContext.IntendedSessionIsAdopted | crypto-tracker/src/context/AuthContext.js:38-53 | after the intended check, being signed in implies a JWT-shaped stored token and a parsed stored user |
| AuthContext.AuthState.IsAuthenticated | crypto-tracker/src/context/AuthContext.js:108 | `isAuthenticated` holds iff the token is truthy |
| AuthContext.AuthState.constructor | crypto-tracker/src/context/AuthContext.js:12-15 | the first render: token read from storage, no user, loading |
| AuthContext.AuthState.SetAuthData | crypto-tracker/src/context/AuthContext.js:18-24 | storage and state both take the token and user, and the error is cleared |
| AuthContext.AuthState.ClearAuthData | crypto-tracker/src/context/AuthContext.js:27-32 | both keys are removed and token and user are nulled |
| AuthContext.AuthState.InitialCheck | crypto-tracker/src/context/AuthContext.js:35-55 | the effect performs `InitialSession` on the state and storage, then loading ends |
| AuthContext.AuthState.Login | crypto-tracker/src/context/AuthContext.js:58-76 | login succeeds iff the reply has a token and a user, which are then set; otherwise the error is set, auth data cleared and the error rethrown; loading ends false |
| AuthContext.AuthState.Register | crypto-tracker/src/context/AuthContext.js:79-95 | registering changes no auth data; a failure sets the error and is rethrown |
| AuthContext.AuthState.Logout | crypto-tracker/src/context/AuthContext.js:98-102 | logout is `clearAuthData` |
| Chart.CandleWidth | crypto-tracker/src/pages/Chart.jsx:45-51 | the width is 40 for at most 10 candles, 20 up to 30, 15 up to 50, 10 up to 100 and 5 above, each band an iff |
| Chart.CandleWidthNonIncreasing | crypto-tracker/src/pages/Chart.jsx:45-51 | more candles never get wider ones |
| Chart.AppendLive | crypto-tracker/src/pages/Chart.jsx:74-80 | a live price is appended iff no point has its time; the prefix is kept, the length grows by at most one, and distinct times stay distinct |
| Chart.LastItems | crypto-tracker/src/pages/Chart.jsx:86 | `slice(-n)` is the last min(n, length) items, or the whole list when n is 0 |
| Chart.Clamp | crypto-tracker/src/pages/Chart.jsx:142-143 | the zoomed count is within [60, 1440] and equals the request when it already is |
| Chart.Window | crypto-tracker/src/pages/Chart.jsx:147-149 | 0 ≤ startIndex ≤ lastIndex = count − 1 and the window holds min(clamped, count) candles |
| Chart.ChartState.constructor | crypto-tracker/src/pages/Chart.jsx:27-33 | the page starts on BTC with 1440 points, no candlesticks and no x-extents |
| Chart.ChartState.LineChartData | crypto-tracker/src/pages/Chart.jsx:85-90 | the line series is the last min(dataPoints, length) points |
| Chart.ChartState.HistoryRequested | crypto-tracker/src/pages/Chart.jsx:54-58 | each history request, on mount and on every coin change, sets loading and clears the error; the data is kept |
| Chart.ChartState.HistoryLoaded | crypto-tracker/src/pages/Chart.jsx:54-69 | the history reply replaces the data, or records the error; loading ends; coin, point count, extents and the candlestick toggle are kept |
| Chart.ChartState.OnPrice | crypto-tracker/src/pages/Chart.jsx:72-82 | a published price goes through `AppendLive`; none leaves the data alone; every other field, the candlestick toggle included, is kept |
| Chart.ChartState.HandleWheel | crypto-tracker/src/pages/Chart.jsx:135-165 | the count is clamped into [60, 1440]; with candles shown the window spans the last candles that fit, otherwise the extents are kept; data, coin, loading, error flag and the candlestick toggle are kept |
| Chart.ChartState.ShowCandlestick | crypto-tracker/src/pages/Chart.jsx:269-281 | the chart-type buttons set the candlestick toggle to the chosen value and keep every other field |
| Chart.ChartState.HandleCoinChange | crypto-tracker/src/pages/Chart.jsx:168-171 | changing coin sets the selected coin and resets the x-extents to null; data, point count, loading, error flag and the candlestick toggle are kept |
| Chart.ZoomOverCandles | crypto-tracker/src/pages/Chart.jsx:135-165 | after switching to candles, zooming to 100 points over 500 candles views candles 400 to 499 |

## Left out

- Network, database, storage and timer I/O are not modelled. Each appears as a parameter (a reply, a fault flag, an oracle) or as an explicit event method.
- The rate limiter (`backend/src/middlewares/rateLimiter.js`) is not part of this model. It only configures a library whose counting algorithm is not in the repository.
- The cache module is not part of this model either. It is a plain map with get and set and no expiry, since its TTL behaviour is not visible in the code.
- ISO date formatting and parsing are not modelled. History and candle times are the raw open-time cells, the candlestick route's date parsing is an oracle, and the price hook's re-formatting of `last_updated` is an oracle. `toISOString` throwing on an invalid date is modelled only for an empty kline row (500).
- `parseFloat` is not modelled. Values are kept as reals, and a missing cell is NaN; NaN arithmetic and comparisons are not modelled.
- Concurrency is not modelled. The image lookups run through `Promise.all` as a function of the base symbol, and the duplicate-entry insert error is a fault parameter rather than an interleaving.
- Case mapping covers ASCII letters only. Unicode case mapping is out of scope.
- Top10Volume.Top10VolumeRoute: a failing image lookup is folded into the `imageOf` oracle as a null URL. This is how `getCoinImageUrl` reports it, so the route never fails because of an image.
- FavoritesRoute.FavoritesTable.List: returns rows in table order. SQL gives no order guarantee, so only the membership property is a promise of the source.
- The favorites and auth route handlers receive the user id directly. A request whose token carries no user (`req.user` undefined) is not modelled.
- AuthRoute.UsersTable.Register: the insert id is modelled as a counter, and JSON bodies are reduced to the status, the message or id, and the fields the callers read.
- RealtimeCoinPrice.PricePoller.Complete: the outcome of the awaited task is a parameter. Which errors axios names `AbortError` on cancellation is outside the code shown.
- FavoriteContext.FavoritesStore.Fetch: a corrupt stored list (`JSON.parse` throwing) is not modelled, since only this provider writes the key.
- AuthContext.AuthState.InitialCheck: an empty-string stored user counts as present. Only `JSON.stringify` output is ever stored there.
- Chart.jsx's axis formatting, y-domain, mouse position and the time padding of the x-extents are not modelled. They are display arithmetic on floating point. `xExtents` is modelled as the candle index window before padding, and the rounded zoom count is an integer parameter.
- Array-valued query parameters are not modelled. Express turns a repeated key (`?symbols=a&symbols=b`) into an array, and calling string methods on it throws. In the prices route (`backend/src/routes/coinsPrices.js:8-10`) that gives a 500 before any upstream call; in the search route (`backend/src/routes/searchCoins.js:11-18`) it gives a 500 after the upstream call, as soon as one USDT pair reaches the filter. Query values are modelled as strings.
- The presentational pages, `CoinSelector`'s debounce, the news and candlestick polling hooks, the unused `Favorite` model and the server wiring are not part of this model.

## Findings

| source | as written | input that shows it | evidently intended | confidence | as-written member | corrected member |
|---|---|---|---|---|---|---|
| crypto-tracker/src/context/AuthContext.js:13-53 | the token state starts as the stored token, and the check changes it only when both keys are present | `authToken` = "abc", no `authUser`: after the check, `isAuthenticated` is true, `user` is null and the token is not JWT-shaped | a session counts as signed in only when the check adopts it | medium, not executed | AuthContext.LoneTokenStaysSignedIn | AuthContext.IntendedSessionIsAdopted |
