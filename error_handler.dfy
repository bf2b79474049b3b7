/**
 * `handleError`: how a thrown error becomes an HTTP response.
 */
module ErrorHandler {
  import opened Json
  import opened Core
  import opened Netlify

  const GenericMessage := "An internal server error occurred"

  /** The `{code, message}` a handler throws is the only input the mapping
      reads, besides a collaborator's own `statusCode`. */
  function StatusOf(e: Thrown): int
  {
    if e.code == "NOT_FOUND" then 404
    else if e.code == "INVALID_PARAM" then 400
    else if e.statusCode != 0 then e.statusCode
    else 500
  }

  function MessageOf(e: Thrown): string
  {
    if e.code == "NOT_FOUND" then "Resource not found"
    else if e.code == "INVALID_PARAM" then "Invalid request parameters"
    else if e.statusCode != 0 then e.message
    else GenericMessage
  }

  /** `handleError(error, isFrame)`. The development-only stack trace is not
      part of the model. */
  function HandleError(e: Thrown, isFrame: bool, ctx: Context): (r: Response)
    ensures e.code == "NOT_FOUND" ==> r.statusCode == 404 && ErrorMessage(r) == "Resource not found"
    ensures e.code == "INVALID_PARAM" ==> r.statusCode == 400 && ErrorMessage(r) == "Invalid request parameters"
    ensures e.code != "NOT_FOUND" && e.code != "INVALID_PARAM" && e.statusCode != 0 ==>
              r.statusCode == e.statusCode && ErrorMessage(r) == e.message
    ensures e.code != "NOT_FOUND" && e.code != "INVALID_PARAM" && e.statusCode == 0 ==>
              r.statusCode == 500 && ErrorMessage(r) == GenericMessage
    ensures Get(r.body, "success") == Bool(false)
    ensures isFrame ==> Get(r.body, "error") == Obj(map["message" := Str(ErrorMessage(r))])
    ensures !isFrame ==> Get(Get(r.body, "error"), "code") == Str(OrStr(e.code, "SERVER_ERROR"))
    ensures r.headers == CorsHeaders
  {
    var message := MessageOf(e);
    var details :=
      if isFrame then map["message" := Str(message)]
      else map["message" := Str(message), "code" := Str(OrStr(e.code, "SERVER_ERROR"))];
    Response(StatusOf(e), CorsHeaders,
      Obj(map["success" := Bool(false), "error" := Obj(details), "timestamp" := Num(ctx.now)]))
  }

  /** The message inside an error body. */
  function ErrorMessage(r: Response): string
  {
    var m := Get(Get(r.body, "error"), "message");
    if m.Str? then m.s else ""
  }

  /** Every code the handlers throw, apart from NOT_FOUND and INVALID_PARAM,
      carries no status and so becomes a 500 with the generic message. */
  lemma HandlerCodesAreServerErrors(code: string, message: string, isFrame: bool, ctx: Context)
    requires code in {"MISSING_PARAM", "CONTRACT_ERROR", "INVALID_METHOD", "INVALID_PATH",
                      "INVALID_REQUEST", "INVALID_PAYLOAD", "UNSUPPORTED_ACTION"}
    ensures HandleError(Throw(code, message), isFrame, ctx).statusCode == 500
    ensures ErrorMessage(HandleError(Throw(code, message), isFrame, ctx)) == GenericMessage
  {
  }

  /** The two mapped codes win over any status the error carries. */
  lemma CodeBeatsStatus(e: Thrown, isFrame: bool, ctx: Context)
    requires e.code in {"NOT_FOUND", "INVALID_PARAM"}
    ensures HandleError(e, isFrame, ctx).statusCode == HandleError(e.(statusCode := 0), isFrame, ctx).statusCode
    ensures HandleError(e, isFrame, ctx).statusCode != e.statusCode || e.statusCode in {400, 404}
  {
  }
}
