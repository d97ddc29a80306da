/**
 * What crosses the network boundary: the reply of one upstream request
 * (an axios promise that resolves or rejects) and the response a route
 * handler sends.
 */
module Http {
  import opened JsValues

  /**
   * One upstream request: `Ok` carries `response.data`; `Fail` carries
   * `error.response?.status`, `error.response?.data?.message` and
   * `error.message`.
   */
  datatype Reply<+D> =
    | Ok(data: D)
    | Fail(status: Option<int>, bodyMessage: Option<string>, message: string)

  /** The upstream answered 429 Too Many Requests. */
  predicate RateLimited<D>(r: Reply<D>)
  {
    r.Fail? && r.status == Some(429)
  }

  /** `res.status(code).json(body)` or an error object with a message. */
  datatype Response<+T> =
    | Json(status: nat, body: T)
    | Error(status: nat, message: string)
}
