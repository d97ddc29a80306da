/**
 * `fetchWithRetry`: calls the exchange at most `retries` times, waiting
 * `delayMs` after each 429 answer, returning the first success and rethrowing
 * any other error at once.
 *
 * The exchange is an oracle `upstream(path, params, attempt)`: what the
 * `attempt`-th request (counting from 0) to `path` with `params` yields.
 */
module BinanceService {
  import opened JsValues
  import opened Http

  /** `retries` when the caller passes none. */
  const DefaultRetries: int := 3

  /** `delayMs` when the caller passes none. */
  const DefaultDelayMs: nat := 1000

  /** What `fetchWithRetry` settles with. */
  datatype Retried<+D> =
    | Fetched(data: D)
    | Rethrown(status: Option<int>, bodyMessage: Option<string>, message: string)
    | MaxRetriesExceeded

  /** `/api/v3${endpoint}` */
  function ApiPath(endpoint: string): (p: string)
    ensures |p| == 7 + |endpoint| && p[..7] == "/api/v3" && p[7..] == endpoint
  {
    "/api/v3" + endpoint
  }

  /**
   * The outcome and the number of requests made when attempt `i` is next.
   */
  function RetryFrom<P, D>(upstream: (string, P, nat) -> Reply<D>, path: string, params: P,
                           retries: int, i: nat): (Retried<D>, nat)
    decreases retries - i
  {
    if i >= retries then (MaxRetriesExceeded, i)
    else
      match upstream(path, params, i)
      case Ok(d) => (Fetched(d), i + 1)
      case Fail(st, bm, m) =>
        if st == Some(429) then RetryFrom(upstream, path, params, retries, i + 1)
        else (Rethrown(st, bm, m), i + 1)
  }

  /** The `for` loop of `fetchWithRetry`; `waited` is the total delay spent. */
  method FetchWithRetry<P, D>(upstream: (string, P, nat) -> Reply<D>, endpoint: string, params: P,
                              retries: int, delayMs: nat)
    returns (r: Retried<D>, attempts: nat, waited: nat)
    ensures (r, attempts) == RetryFrom(upstream, ApiPath(endpoint), params, retries, 0)
    ensures waited == delayMs * (if r.MaxRetriesExceeded? then attempts else attempts - 1)
  {
    var path := ApiPath(endpoint);
    var i: nat := 0;
    waited := 0;
    while i < retries
      invariant RetryFrom(upstream, path, params, retries, 0) == RetryFrom(upstream, path, params, retries, i)
      invariant retries >= 0 ==> i <= retries
      invariant retries < 0 ==> i == 0
      invariant waited == delayMs * i
      decreases retries - i
    {
      var reply := upstream(path, params, i);
      match reply {
        case Ok(d) =>
          return Fetched(d), i + 1, waited;
        case Fail(st, bm, m) =>
          if st == Some(429) {
            waited := waited + delayMs;
          } else {
            return Rethrown(st, bm, m), i + 1, waited;
          }
      }
      i := i + 1;
    }
    r, attempts := MaxRetriesExceeded, i;
  }

  /**
   * The full characterisation of the outcome: every request before the last
   * one was answered 429; a success returns the last reply's data unchanged;
   * a rethrow carries the last reply's non-429 error; exhaustion happens
   * after exactly `retries` requests (none when `retries <= 0`).
   */
  lemma {:induction false} RetryOutcome<P, D>(upstream: (string, P, nat) -> Reply<D>, path: string,
                                              params: P, retries: int, i: nat)
    requires i <= retries || i == 0
    ensures var (r, n) := RetryFrom(upstream, path, params, retries, i);
            && i <= n
            && (retries >= 0 ==> n <= retries)
            && (retries < 0 ==> n == 0)
            && (forall k :: i <= k < (if r.MaxRetriesExceeded? then n else n - 1) ==> RateLimited(upstream(path, params, k)))
            && (r.Fetched? ==> n >= 1 && upstream(path, params, n - 1) == Ok(r.data))
            && (r.Rethrown? ==> n >= 1 && !RateLimited(upstream(path, params, n - 1))
                                && upstream(path, params, n - 1) == Fail(r.status, r.bodyMessage, r.message))
            && (r.MaxRetriesExceeded? ==> n == (if retries < 0 then 0 else retries))
    decreases retries - i
  {
    if i < retries {
      match upstream(path, params, i)
      case Ok(d) =>
      case Fail(st, bm, m) =>
        if st == Some(429) {
          RetryOutcome(upstream, path, params, retries, i + 1);
        }
    }
  }

  /** When every request is answered 429, exactly `retries` requests are made before failing. */
  lemma AllRateLimited<P, D>(upstream: (string, P, nat) -> Reply<D>, path: string, params: P, retries: nat)
    requires forall k :: 0 <= k < retries ==> RateLimited(upstream(path, params, k))
    ensures RetryFrom(upstream, path, params, retries, 0) == (MaxRetriesExceeded, retries)
  {
    RetryOutcome(upstream, path, params, retries, 0);
  }

  /** Three 429s followed by a success still fail with the default of three attempts. */
  lemma ThreeRateLimitsThenSuccess<D>(payload: D, params: int)
    ensures var upstream := (p: string, q: int, k: nat) =>
              if k < 3 then Fail(Some(429), None, "Too Many Requests") else Ok(payload);
            RetryFrom(upstream, ApiPath("/klines"), params, DefaultRetries, 0) == (MaxRetriesExceeded, 3)
  {
    var upstream := (p: string, q: int, k: nat) =>
      if k < 3 then Fail(Some(429), None, "Too Many Requests") else Ok(payload);
    AllRateLimited(upstream, ApiPath("/klines"), params, 3);
  }
}
