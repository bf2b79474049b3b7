/**
 * The request and response shapes of a Netlify function, and the inputs the
 * handlers read from their environment.
 */
module Netlify {
  import opened Json

  /** A request. `path` is the part of the URL path after the function's own
      prefix, already split on '/'; `query` and `headers` are `None` when the
      event carries no such object; `body` is the decoded JSON body, or
      `None` when it does not parse. */
  datatype Event = Event(
    httpMethod: string,
    path: seq<string>,
    headers: Option<map<string, string>>,
    query: Option<map<string, string>>,
    body: Option<Value>)

  /** A response. `body` is the value before `JSON.stringify`. */
  datatype Response = Response(statusCode: int, headers: map<string, string>, body: Value)

  /** What the handlers read from the clock and from `process.env`:
      `Date.now()` and `CACHE_DURATION` (empty when unset). */
  datatype Context = Context(now: int, cacheDuration: string)

  /** The cross-origin headers every formatted response carries. */
  const CorsHeaders: map<string, string> := map[
    "Content-Type" := "application/json",
    "Access-Control-Allow-Origin" := "*",
    "Access-Control-Allow-Methods" := "GET, OPTIONS",
    "Access-Control-Allow-Headers" := "Content-Type"]

  /** `event.queryStringParameters || {}` */
  function QueryOf(event: Event): map<string, string>
  {
    if event.query.Some? then event.query.value else map[]
  }

  /** `path[i] || ''` */
  function Segment(path: seq<string>, i: nat): string
  {
    if i < |path| then path[i] else ""
  }

  /** `parseInt(queryParams.limit) || 20`, the page size of every paginated
      route; never zero. */
  function LimitParam(q: map<string, string>): (limit: nat)
    ensures limit >= 1
    ensures "limit" !in q ==> limit == 20
  {
    ParseIntOr(Param(q, "limit"), 20)
  }

  /** `parseInt(queryParams.offset) || 0` */
  function OffsetParam(q: map<string, string>): (offset: nat)
    ensures "offset" !in q ==> offset == 0
  {
    ParseIntOr(Param(q, "offset"), 0)
  }
}
