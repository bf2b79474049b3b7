/**
 * The frame-webhooks function: accepts only POST, validates the decoded
 * Farcaster Frame payload, and acknowledges the three supported actions.
 * Its errors go through `handleError` without the frame flag.
 */
module FrameWebhooks {
  import opened Json
  import opened Core
  import opened Netlify
  import opened ResponseFormatter
  import opened ErrorHandler

  /** The answer to any method other than POST. */
  const MethodNotAllowed: Response :=
    Response(405, map["Allow" := "POST", "Content-Type" := "application/json"],
             Obj(map["success" := Bool(false), "error" := Obj(map["message" := Str("Method not allowed")])]))

  /** The payload checks: `frameAction`, `trustedData` and
      `trustedData.messageBytes` must all be truthy. Reading a property of a
      `null` payload raises a TypeError. */
  function CheckPayload(payload: Value): (r: Result<()>)
    ensures r.Ok? <==> payload != Null && payload != Undefined
                       && Truthy(Get(payload, "frameAction")) && Truthy(Get(payload, "trustedData"))
                       && Truthy(Get(Get(payload, "trustedData"), "messageBytes"))
    ensures payload == Null || payload == Undefined ==> r == Fail(TypeError())
    ensures r.Fail? && payload != Null && payload != Undefined ==>
              r == Fail(Throw("INVALID_PAYLOAD", "Missing required fields in Frame payload"))
  {
    if payload == Null || payload == Undefined then Fail(TypeError())
    else if !Truthy(Get(payload, "frameAction")) || !Truthy(Get(payload, "trustedData"))
            || !Truthy(Get(Get(payload, "trustedData"), "messageBytes")) then
      Fail(Throw("INVALID_PAYLOAD", "Missing required fields in Frame payload"))
    else Ok(())
  }

  /** The acknowledgement of a supported action, or UNSUPPORTED_ACTION. */
  function Acknowledge(payload: Value, now: int): Result<Value>
  {
    var action := Get(payload, "frameAction");
    if action == Str("buttonClick") then
      Ok(Obj(map["message" := Str("Button click processed successfully"), "action" := Str("buttonClick"),
                 "buttonIndex" := Get(payload, "buttonIndex"), "timestamp" := Num(now)]))
    else if action == Str("textInput") then
      Ok(Obj(map["message" := Str("Text input processed successfully"), "action" := Str("textInput"),
                 "timestamp" := Num(now)]))
    else if action == Str("urlUpload") then
      Ok(Obj(map["message" := Str("URL upload processed successfully"), "action" := Str("urlUpload"),
                 "timestamp" := Num(now)]))
    else Fail(Throw("UNSUPPORTED_ACTION", "Unsupported frame action: " + Show(action)))
  }

  /** What the handler computes from the body once rate limiting has passed:
      the acknowledgement data, or what it throws. `None` is a body that is
      not JSON. */
  function Process(body: Option<Value>, now: int): Result<Value>
  {
    match body
    case None => Fail(Throw("INVALID_REQUEST", "Invalid JSON in request body"))
    case Some(payload) =>
      match CheckPayload(payload)
      case Fail(e) => Fail(e)
      case Ok(_) => Acknowledge(payload, now)
  }

  /** The whole handler; `rateLimit` is what `rateLimitCheck(event)`
      answered. */
  function WebhookResponse(event: Event, rateLimit: Option<Response>, ctx: Context): Response
  {
    if event.httpMethod != "POST" then MethodNotAllowed
    else if rateLimit.Some? then rateLimit.value
    else match Process(event.body, ctx.now)
      case Fail(e) => HandleError(e, false, ctx)
      case Ok(data) => CreateResponse(data, 200, map[], false, ctx)
  }

  /** Any method but POST is refused with 405 and `Allow: POST`, before the
      rate limiter is consulted and whatever the body. */
  lemma OnlyPost(event: Event, rateLimit: Option<Response>, ctx: Context)
    requires event.httpMethod != "POST"
    ensures WebhookResponse(event, rateLimit, ctx).statusCode == 405
    ensures WebhookResponse(event, rateLimit, ctx).headers["Allow"] == "POST"
  {
  }

  /** Exactly the three actions are acknowledged, given a valid payload. */
  lemma SupportedActions(payload: Value, now: int)
    requires CheckPayload(payload).Ok?
    ensures Process(Some(payload), now).Ok? <==>
              Get(payload, "frameAction") in {Str("buttonClick"), Str("textInput"), Str("urlUpload")}
    ensures Process(Some(payload), now).Fail? ==> Process(Some(payload), now).error.code == "UNSUPPORTED_ACTION"
    ensures Process(Some(payload), now).Ok? ==>
              Get(Process(Some(payload), now).value, "action") == Get(payload, "frameAction")
  {
  }

  /** A button click echoes the button index it was given. */
  lemma ButtonClickEcho(payload: Value, now: int)
    requires CheckPayload(payload).Ok? && Get(payload, "frameAction") == Str("buttonClick")
    ensures Get(Process(Some(payload), now).value, "buttonIndex") == Get(payload, "buttonIndex")
    ensures Get(Process(Some(payload), now).value, "action") == Str("buttonClick")
  {
  }

  /** Every failure of a POST becomes a 500 with the generic message and a
      non-frame error body carrying the thrown code (SERVER_ERROR for the
      TypeError of a `null` payload). */
  lemma FailuresAreServerErrors(event: Event, ctx: Context)
    requires event.httpMethod == "POST" && Process(event.body, ctx.now).Fail?
    ensures WebhookResponse(event, None, ctx).statusCode == 500
    ensures ErrorMessage(WebhookResponse(event, None, ctx)) == GenericMessage
    ensures Get(Get(WebhookResponse(event, None, ctx).body, "error"), "code")
         == Str(OrStr(Process(event.body, ctx.now).error.code, "SERVER_ERROR"))
    ensures event.body.None? ==> Process(event.body, ctx.now).error.code == "INVALID_REQUEST"
    ensures event.body == Some(Null) ==> Process(event.body, ctx.now).error.code == ""
  {
    ProcessFailures(event.body, ctx.now);
    assert WebhookResponse(event, None, ctx) == HandleError(Process(event.body, ctx.now).error, false, ctx);
  }

  /** Everything the handler throws carries no status of its own, and is
      neither NOT_FOUND nor INVALID_PARAM. */
  lemma ProcessFailures(body: Option<Value>, now: int)
    ensures Process(body, now).Fail? ==>
              Process(body, now).error.statusCode == 0
              && Process(body, now).error.code in {"", "INVALID_REQUEST", "INVALID_PAYLOAD", "UNSUPPORTED_ACTION"}
  {
  }

  /** A POST that is not rate limited is answered 200 exactly when its
      payload is valid and its action supported. */
  lemma AcceptedIffValid(event: Event, ctx: Context)
    requires event.httpMethod == "POST"
    ensures WebhookResponse(event, None, ctx).statusCode == 200 <==>
              event.body.Some? && CheckPayload(event.body.value).Ok?
              && Get(event.body.value, "frameAction") in {Str("buttonClick"), Str("textInput"), Str("urlUpload")}
  {
    ProcessFailures(event.body, ctx.now);
    if event.body.Some? && CheckPayload(event.body.value).Ok? {
      SupportedActions(event.body.value, ctx.now);
    }
  }
}
