/**
 * The frame every content handler (books, authors, collections, blockchain,
 * metrics) shares: a failed adapter initialisation is an error, a rate-limit
 * answer short-circuits, a value becomes a 200 envelope marked for frames
 * when needed, and a thrown error goes through `handleError` with the same
 * frame flag.
 */
module HandlerFlow {
  import opened Json
  import opened Core
  import opened Netlify
  import opened ResponseFormatter
  import opened ErrorHandler
  import opened FrameDetection

  /** `try { …; return optimizeForFrame(createResponse(data, 200, {}, isFrame), isFrame) }
      catch (error) { return handleError(error, isFrameRequest(event)) }` */
  function Conclude(outcome: Result<Value>, isFrame: bool, ctx: Context): (r: Response)
    ensures outcome.Ok? ==> r.statusCode == 200 && Get(r.body, "success") == Bool(true)
    ensures outcome.Ok? ==> Get(r.body, "data") == outcome.value
    ensures outcome.Ok? ==> (isFrame <==> "X-Frame-Optimized" in r.headers)
    ensures outcome.Fail? ==> r == HandleError(outcome.error, isFrame, ctx)
  {
    match outcome
    case Ok(data) => OptimizeForFrame(CreateResponse(data, 200, map[], isFrame, ctx), isFrame)
    case Fail(e) => HandleError(e, isFrame, ctx)
  }

  /** The whole handler: `init` is how `initializeContentAdapters()` ended
      (the books, authors and blockchain handlers call it first, inside the
      `try`; the collections and metrics handlers do not, which is `Ok(())`),
      `rateLimit` is what `rateLimitCheck(event)` answered, and `outcome`
      what the route computed. */
  function Serve(event: Event, init: Result<()>, rateLimit: Option<Response>, outcome: Result<Value>,
                 ctx: Context): (r: Response)
    ensures init.Fail? ==> r == HandleError(init.error, IsFrameRequest(Some(event)), ctx)
    ensures init.Ok? && rateLimit.Some? ==> r == rateLimit.value
    ensures init.Ok? && rateLimit.None? ==> r == Conclude(outcome, IsFrameRequest(Some(event)), ctx)
  {
    if init.Fail? then HandleError(init.error, IsFrameRequest(Some(event)), ctx)
    else if rateLimit.Some? then rateLimit.value
    else Conclude(outcome, IsFrameRequest(Some(event)), ctx)
  }
}
