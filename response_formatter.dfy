/**
 * `createResponse`: the success envelope every handler answers with.
 */
module ResponseFormatter {
  import opened Json
  import opened Netlify

  /** `public, max-age=${process.env.CACHE_DURATION || 60}` */
  function CacheControl(cacheDuration: string): string
  {
    "public, max-age=" + OrStr(cacheDuration, "60")
  }

  function DefaultHeaders(cacheDuration: string): map<string, string>
  {
    CorsHeaders["Cache-Control" := CacheControl(cacheDuration)]
  }

  /** `createResponse(data, statusCode, extraHeaders, isFrame)`: the body is
      `{success, data, timestamp}`; `isFrame` is accepted and not used. */
  function CreateResponse(data: Value, statusCode: int, extraHeaders: map<string, string>, isFrame: bool, ctx: Context): (r: Response)
    ensures r.statusCode == statusCode
    ensures Get(r.body, "success") == Bool(200 <= statusCode < 300)
    ensures Get(r.body, "data") == data
    ensures r.headers.Keys == DefaultHeaders(ctx.cacheDuration).Keys + extraHeaders.Keys
    ensures forall h :: h in extraHeaders ==> r.headers[h] == extraHeaders[h]
    ensures forall h :: h in CorsHeaders && h != "Cache-Control" && h !in extraHeaders ==> r.headers[h] == CorsHeaders[h]
    ensures "Cache-Control" !in extraHeaders ==> r.headers["Cache-Control"] == CacheControl(ctx.cacheDuration)
  {
    Response(
      statusCode,
      DefaultHeaders(ctx.cacheDuration) + extraHeaders,
      Obj(map["success" := Bool(200 <= statusCode && statusCode < 300), "data" := data, "timestamp" := Num(ctx.now)]))
  }

  /** `createResponse(data)`, with every default. */
  function CreateResponseDefaults(data: Value, ctx: Context): (r: Response)
    ensures r.statusCode == 200 && Get(r.body, "success") == Bool(true)
    ensures r.headers == DefaultHeaders(ctx.cacheDuration)
  {
    CreateResponse(data, 200, map[], false, ctx)
  }

  /** The frame flag changes nothing in the envelope. */
  lemma FrameFlagIgnored(data: Value, statusCode: int, extraHeaders: map<string, string>, ctx: Context)
    ensures CreateResponse(data, statusCode, extraHeaders, true, ctx) == CreateResponse(data, statusCode, extraHeaders, false, ctx)
  {
  }

  /** Without a configured duration the cache lifetime is sixty seconds. */
  lemma DefaultCacheLifetime(data: Value, statusCode: int, ctx: Context)
    requires ctx.cacheDuration == ""
    ensures CreateResponse(data, statusCode, map[], false, ctx).headers["Cache-Control"] == "public, max-age=60"
  {
  }
}
