/**
 * `useRealtimeCoinPrice`: polls the backend for one coin's price through a
 * debounced trigger and a queue that runs one fetch at a time.
 *
 * Timers, the debounce, the awaited fetch and the abort controller are
 * modelled as explicit events: each method of `PricePoller` is one thing
 * that can happen (the effect running, the interval ticking, the debounce
 * firing, a fetch settling, the follow-up timeout firing, the effect being
 * cleaned up). A fetch is the sequence of replies its attempts receive.
 */
module RealtimeCoinPrice {
  import opened JsValues
  import opened CoinsPrices

  const RateLimitMessage: string := "Rate limit exceeded. Please try again in a few minutes."
  const AbortErrorName: string := "AbortError"
  /** Delay before retrying a 429, and before looking at the queue again. */
  const RetryDelayMs: nat := 1000
  const DefaultIntervalMs: nat := 5000

  /** What the hook publishes: `{ price, percent_change_24h, last_updated }`. */
  datatype PricePayload = PricePayload(price: real, percentChange24h: real, lastUpdated: string)

  /** One reply to `GET /api/coins/prices?symbols=...`: data, or an error with its name and HTTP status. */
  datatype FetchReply =
    | Answer(data: seq<PriceQuote>)
    | Failure(name: string, status: Option<int>, message: string)

  /** How a queued task settles. */
  datatype TaskOutcome =
    | Resolved(payload: PricePayload)
    | Rejected(name: string, status: Option<int>, message: string)

  /** `fetchPrice`'s result: `None` while it is still retrying, and the total time spent waiting. */
  datatype Fetched = Fetched(outcome: Option<TaskOutcome>, waitedMs: nat)

  /** The error the hook stores. */
  datatype PriceError = PriceError(name: string, message: string)

  predicate TooManyRequests(r: FetchReply)
  {
    r.Failure? && r.status == Some(429)
  }

  /** How `fetchPrice` settles on a reply that is not a 429. `reformat` is `new Date(x).toISOString()`. */
  function Settle(symbol: string, r: FetchReply, reformat: string -> string): (o: TaskOutcome)
    requires !TooManyRequests(r)
    ensures o.Rejected? ==> o.status != Some(429)
    ensures r.Answer? && |r.data| > 0 ==>
              o == Resolved(PricePayload(r.data[0].price, r.data[0].percentChange24h, reformat(r.data[0].lastUpdated)))
    ensures r.Answer? && |r.data| == 0 ==> o == Rejected("Error", None, "No data found for " + symbol)
    ensures r.Failure? ==> o == Rejected(r.name, r.status, r.message)
  {
    match r
    case Answer(data) =>
      if |data| > 0 then
        Resolved(PricePayload(data[0].price, data[0].percentChange24h, reformat(data[0].lastUpdated)))
      else Rejected("Error", None, "No data found for " + symbol)
    case Failure(n, st, m) => Rejected(n, st, m)
  }

  /** The index of the first reply that is not a 429, or `|replies|` when there is none. */
  function FirstSettled(replies: seq<FetchReply>): (k: nat)
    ensures k <= |replies|
    ensures forall j :: 0 <= j < k ==> TooManyRequests(replies[j])
    ensures k < |replies| ==> !TooManyRequests(replies[k])
  {
    if replies == [] || !TooManyRequests(replies[0]) then 0
    else 1 + FirstSettled(replies[1..])
  }

  /**
   * `fetchPrice` over the replies its successive attempts receive: a 429 is
   * retried after a second, anything else settles the task.
   */
  function FetchPrice(symbol: string, replies: seq<FetchReply>, reformat: string -> string): (f: Fetched)
    ensures f.outcome.Some? && f.outcome.value.Rejected? ==> f.outcome.value.status != Some(429)
  {
    if replies == [] then Fetched(None, 0)
    else if !TooManyRequests(replies[0]) then Fetched(Some(Settle(symbol, replies[0], reformat)), 0)
    else
      var rest := FetchPrice(symbol, replies[1..], reformat);
      Fetched(rest.outcome, rest.waitedMs + RetryDelayMs)
  }

  /**
   * The task settles on the first reply that is not a 429, after waiting a
   * second for each 429 before it; while every reply is a 429 it keeps
   * retrying.
   */
  lemma {:induction false} FetchPriceSpec(symbol: string, replies: seq<FetchReply>, reformat: string -> string)
    ensures var f, k := FetchPrice(symbol, replies, reformat), FirstSettled(replies);
            && f.waitedMs == RetryDelayMs * k
            && (k < |replies| ==> f.outcome == Some(Settle(symbol, replies[k], reformat)))
            && (k == |replies| ==> f.outcome.None?)
  {
    if replies != [] && TooManyRequests(replies[0]) {
      var tail := replies[1..];
      FetchPriceSpec(symbol, tail, reformat);
      assert FirstSettled(replies) == 1 + FirstSettled(tail);
      if FirstSettled(tail) < |tail| {
        assert replies[FirstSettled(replies)] == tail[FirstSettled(tail)];
      }
    }
  }

  /** The error stored after a rejected task that was not aborted. */
  function StoredError(name: string, status: Option<int>, message: string): (e: PriceError)
    ensures status == Some(429) ==> e == PriceError("Error", RateLimitMessage)
    ensures status != Some(429) ==> e == PriceError(name, message)
  {
    if status == Some(429) then PriceError("Error", RateLimitMessage) else PriceError(name, message)
  }

  /**
   * The rate-limit branch of `processQueue` is unreachable for price
   * fetches: `fetchPrice` retries every 429 itself, so a rejected task's
   * error is always stored as it is.
   */
  lemma QueueNeverSeesRateLimit(symbol: string, replies: seq<FetchReply>, reformat: string -> string)
    requires FetchPrice(symbol, replies, reformat).outcome.Some?
    requires FetchPrice(symbol, replies, reformat).outcome.value.Rejected?
    ensures var o := FetchPrice(symbol, replies, reformat).outcome.value;
            StoredError(o.name, o.status, o.message) == PriceError(o.name, o.message)
  {
  }

  /** The hook's refs and state. */
  class PricePoller {
    /** The symbol the hook is currently rendered with. */
    var symbol: string
    var intervalMs: nat
    var priceData: Option<PricePayload>
    var loading: bool
    var error: Option<PriceError>
    /** `queueRef`: each entry is a `fetchPrice` for the symbol it was created with. */
    var queue: seq<string>
    /** `processingRef` */
    var processing: bool
    /** The symbol of the task being awaited, if any. */
    var inFlight: Option<string>
    /** `abortControllerRef.current` is set (some fetch has started). */
    var hasAbortController: bool
    var abortRequested: bool
    /** The timer whose id `timeoutRef.current` holds is still pending. */
    var liveTimeout: bool
    /**
     * Follow-up timers still pending whose ids were overwritten in
     * `timeoutRef` by a later `finally`; nothing can clear them any more.
     */
    var orphanedTimeouts: nat
    var debouncePending: bool
    var intervalActive: bool

    /** At most one task runs at a time, and it is the one `processing` stands for. */
    predicate Valid()
      reads this
    {
      processing <==> inFlight.Some?
    }

    /** First render followed by the effect: state reset, one debounced call, the interval started. */
    constructor (sym: string, interval: nat)
      ensures Valid()
      ensures symbol == sym && intervalMs == interval
      ensures priceData == None && loading && error == None
      ensures queue == [] && !processing && inFlight == None
      ensures !hasAbortController && !abortRequested && !liveTimeout && orphanedTimeouts == 0
      ensures debouncePending && intervalActive
    {
      symbol := sym;
      intervalMs := interval;
      priceData := None;
      loading := true;
      error := None;
      queue := [];
      processing := false;
      inFlight := None;
      hasAbortController := false;
      abortRequested := false;
      liveTimeout := false;
      orphanedTimeouts := 0;
      debouncePending := true;
      intervalActive := true;
    }

    /** `processQueue`: a no-op when busy or idle; otherwise the head task starts (FIFO). */
    method ProcessQueue()
      modifies this
      ensures old(processing) || old(queue) == [] ==> unchanged(this)
      ensures !old(processing) && old(queue) != [] ==>
                processing && inFlight == Some(old(queue)[0]) && queue == old(queue)[1..]
                && hasAbortController && !abortRequested
                && priceData == old(priceData) && error == old(error) && loading == old(loading)
                && symbol == old(symbol) && liveTimeout == old(liveTimeout) && orphanedTimeouts == old(orphanedTimeouts)
                && debouncePending == old(debouncePending) && intervalActive == old(intervalActive)
                && intervalMs == old(intervalMs)
      ensures old(Valid()) ==> Valid()
    {
      if processing || |queue| == 0 {
        return;
      }
      processing := true;
      inFlight := Some(queue[0]);
      queue := queue[1..];
      // the task is `fetchPrice`, which starts with a fresh AbortController
      hasAbortController := true;
      abortRequested := false;
    }

    /** The debounce fires: one `fetchPrice` for the current symbol is enqueued, then `processQueue` runs. */
    method DebounceFire()
      modifies this
      ensures !old(debouncePending) ==> unchanged(this)
      ensures old(debouncePending) ==> !debouncePending
      ensures old(debouncePending) && old(processing) ==>
                queue == old(queue) + [old(symbol)] && inFlight == old(inFlight) && processing
                && hasAbortController == old(hasAbortController) && abortRequested == old(abortRequested)
      ensures old(debouncePending) && !old(processing) ==>
                queue == (old(queue) + [old(symbol)])[1..] && processing
                && inFlight == Some((old(queue) + [old(symbol)])[0])
                && hasAbortController && !abortRequested
      ensures priceData == old(priceData) && error == old(error) && loading == old(loading) && symbol == old(symbol)
      ensures liveTimeout == old(liveTimeout) && orphanedTimeouts == old(orphanedTimeouts)
      ensures intervalActive == old(intervalActive) && intervalMs == old(intervalMs)
      ensures old(Valid()) ==> Valid()
    {
      if !debouncePending {
        return;
      }
      debouncePending := false;
      queue := queue + [symbol];
      ProcessQueue();
    }

    /** The interval ticks: the debounced function is called again (its timer restarts). */
    method IntervalTick()
      modifies this
      ensures !old(intervalActive) ==> unchanged(this)
      ensures old(intervalActive) ==> debouncePending && queue == old(queue) && processing == old(processing)
                                      && inFlight == old(inFlight) && priceData == old(priceData)
                                      && error == old(error) && loading == old(loading)
                                      && liveTimeout == old(liveTimeout) && symbol == old(symbol)
                                      && orphanedTimeouts == old(orphanedTimeouts) && intervalActive
                                      && hasAbortController == old(hasAbortController)
                                      && abortRequested == old(abortRequested) && intervalMs == old(intervalMs)
      ensures old(Valid()) ==> Valid()
    {
      if intervalActive {
        debouncePending := true;
      }
    }

    /**
     * The awaited task settles: a result is published and the error
     * cleared; an abort changes neither; any other error is stored, a 429
     * as the fixed rate-limit message. Then loading and processing end and
     * a follow-up timer is scheduled; its id overwrites `timeoutRef`
     * without clearing the timer held there before, which stays pending.
     */
    method Complete(outcome: TaskOutcome)
      modifies this
      ensures old(inFlight).None? ==> unchanged(this)
      ensures old(inFlight).Some? ==>
                && !loading && !processing && inFlight == None && liveTimeout
                && orphanedTimeouts == old(orphanedTimeouts) + (if old(liveTimeout) then 1 else 0)
                && queue == old(queue) && symbol == old(symbol) && debouncePending == old(debouncePending)
                && intervalActive == old(intervalActive) && intervalMs == old(intervalMs)
                && hasAbortController == old(hasAbortController) && abortRequested == old(abortRequested)
      ensures old(inFlight).Some? && outcome.Resolved? ==> priceData == Some(outcome.payload) && error == None
      ensures old(inFlight).Some? && outcome.Rejected? && outcome.name == AbortErrorName ==>
                priceData == old(priceData) && error == old(error)
      ensures old(inFlight).Some? && outcome.Rejected? && outcome.name != AbortErrorName ==>
                priceData == old(priceData) && error == Some(StoredError(outcome.name, outcome.status, outcome.message))
      ensures old(Valid()) ==> Valid()
    {
      if inFlight.None? {
        return;
      }
      Publish(outcome);
      loading := false;
      processing := false;
      inFlight := None;
      if liveTimeout {
        orphanedTimeouts := orphanedTimeouts + 1;
      }
      liveTimeout := true;
    }

    /** The `try`/`catch` of `processQueue`: what the settled task leaves in `priceData` and `error`. */
    method Publish(outcome: TaskOutcome)
      modifies this`priceData, this`error
      ensures outcome.Resolved? ==> priceData == Some(outcome.payload) && error == None
      ensures outcome.Rejected? && outcome.name == AbortErrorName ==>
                priceData == old(priceData) && error == old(error)
      ensures outcome.Rejected? && outcome.name != AbortErrorName ==>
                priceData == old(priceData) && error == Some(StoredError(outcome.name, outcome.status, outcome.message))
    {
      if outcome.Resolved? {
        priceData := Some(outcome.payload);
        error := None;
      } else if outcome.name != AbortErrorName {
        error := Some(StoredError(outcome.name, outcome.status, outcome.message));
      }
    }

    /**
     * A pending follow-up timer fires and runs `processQueue`: the one
     * `timeoutRef` holds when `orphan` is false, otherwise one of those whose
     * ids were overwritten. With no such timer pending nothing happens.
     */
    method TimeoutFire(orphan: bool)
      modifies this
      ensures !(if orphan then old(orphanedTimeouts) > 0 else old(liveTimeout)) ==> unchanged(this)
      ensures (if orphan then old(orphanedTimeouts) > 0 else old(liveTimeout)) ==>
                && (orphan ==> orphanedTimeouts == old(orphanedTimeouts) - 1 && liveTimeout == old(liveTimeout))
                && (!orphan ==> !liveTimeout && orphanedTimeouts == old(orphanedTimeouts))
      ensures (if orphan then old(orphanedTimeouts) > 0 else old(liveTimeout)) && !old(processing) && old(queue) != [] ==>
                processing && inFlight == Some(old(queue)[0]) && queue == old(queue)[1..]
                && hasAbortController && !abortRequested
      ensures (if orphan then old(orphanedTimeouts) > 0 else old(liveTimeout)) && (old(processing) || old(queue) == []) ==>
                queue == old(queue) && processing == old(processing) && inFlight == old(inFlight)
                && hasAbortController == old(hasAbortController) && abortRequested == old(abortRequested)
      ensures priceData == old(priceData) && error == old(error) && loading == old(loading)
      ensures symbol == old(symbol) && intervalMs == old(intervalMs)
      ensures intervalActive == old(intervalActive) && debouncePending == old(debouncePending)
      ensures old(Valid()) ==> Valid()
    {
      if orphan {
        if orphanedTimeouts == 0 {
          return;
        }
        orphanedTimeouts := orphanedTimeouts - 1;
      } else {
        if !liveTimeout {
          return;
        }
        liveTimeout := false;
      }
      ProcessQueue();
    }

    /**
     * The effect's cleanup: the interval is cleared, the current fetch is
     * aborted, the timer whose id `timeoutRef` holds and the debounce are
     * cancelled. Timers whose ids were overwritten stay pending; the queue
     * and the processing flag are left as they are.
     */
    method Cleanup()
      modifies this
      ensures !intervalActive && !liveTimeout && !debouncePending
      ensures orphanedTimeouts == old(orphanedTimeouts)
      ensures abortRequested == (old(abortRequested) || old(hasAbortController))
      ensures hasAbortController == old(hasAbortController) && intervalMs == old(intervalMs)
      ensures queue == old(queue) && processing == old(processing) && inFlight == old(inFlight)
      ensures priceData == old(priceData) && error == old(error) && loading == old(loading) && symbol == old(symbol)
      ensures old(Valid()) ==> Valid()
    {
      intervalActive := false;
      if hasAbortController {
        abortRequested := true;
      }
      liveTimeout := false;
      debouncePending := false;
    }

    /** A new symbol: the old effect is cleaned up, then the effect runs again for `sym`. */
    method ChangeSymbol(sym: string)
      modifies this
      ensures symbol == sym && priceData == None && loading && error == None
      ensures debouncePending && intervalActive && !liveTimeout && orphanedTimeouts == old(orphanedTimeouts)
      ensures abortRequested == (old(abortRequested) || old(hasAbortController))
      ensures hasAbortController == old(hasAbortController) && intervalMs == old(intervalMs)
      ensures queue == old(queue) && processing == old(processing) && inFlight == old(inFlight)
      ensures old(Valid()) ==> Valid()
    {
      Cleanup();
      symbol := sym;
      priceData := None;
      loading := true;
      error := None;
      debouncePending := true;
      intervalActive := true;
    }
  }

  /** Unmounting while the first fetch is awaited aborts that fetch. */
  method UnmountAbortsFetch(sym: string) returns (p: PricePoller)
    ensures p.abortRequested && p.inFlight == Some(sym) && p.processing
    ensures !p.intervalActive && !p.debouncePending && !p.liveTimeout
  {
    p := new PricePoller(sym, 5000);
    p.DebounceFire();   // the first fetch starts with a fresh controller
    p.Cleanup();        // unmount aborts it
  }

  /**
   * A task can start after unmount: a follow-up timer whose id a later
   * `finally` overwrote escapes the cleanup and runs `processQueue`, which
   * starts the next queued fetch although the interval is gone.
   */
  method TaskStartsAfterUnmount() returns (p: PricePoller)
    ensures !p.intervalActive && !p.liveTimeout && !p.debouncePending
    ensures p.processing && p.inFlight == Some("BTC")
  {
    var payload := PricePayload(1.0, 0.0, "t");
    p := new PricePoller("BTC", 5000);
    p.DebounceFire();              // the first fetch starts
    p.IntervalTick();
    p.DebounceFire();              // queued behind it
    p.Complete(Resolved(payload)); // timer T1 armed
    p.IntervalTick();
    p.DebounceFire();              // the queued fetch starts at once
    p.IntervalTick();
    p.DebounceFire();              // one more is queued
    p.Complete(Resolved(payload)); // timer T2 overwrites T1's id
    p.Cleanup();                   // unmount clears only T2
    p.TimeoutFire(true);           // T1 fires and starts the queued fetch
  }
}
