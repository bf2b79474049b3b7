/**
 * `isFrameRequest` and `optimizeForFrame`: recognising requests that come
 * from a Farcaster Frame, and marking their responses.
 */
module FrameDetection {
  import opened Json
  import opened Netlify

  /** `isFrameRequest(event)`; `None` is a missing event. */
  function IsFrameRequest(event: Option<Event>): (b: bool)
    ensures event.None? || event.value.headers.None? ==> !b
    ensures event.Some? && event.value.headers.Some? ==>
              (b <==> || Includes(Param(event.value.headers.value, "user-agent"), "Farcaster")
                      || Param(event.value.headers.value, "fc-frame") == "true"
                      || Param(QueryOf(event.value), "frame") == "true")
  {
    if event.None? || event.value.headers.None? then false
    else
      var headers := event.value.headers.value;
      var userAgent := Param(headers, "user-agent");
      var fcFrame := Param(headers, "fc-frame");
      Includes(userAgent, "Farcaster") || fcFrame == "true"
        || (event.value.query.Some? && "frame" in event.value.query.value && event.value.query.value["frame"] == "true")
  }

  /** `optimizeForFrame(response, isFrame)`. Re-serialising the body leaves the
      modelled value as it was. */
  function OptimizeForFrame(response: Response, isFrame: bool): (r: Response)
    ensures !isFrame ==> r == response
    ensures isFrame ==> r.statusCode == response.statusCode && r.body == response.body
    ensures isFrame ==> r.headers.Keys == response.headers.Keys + {"X-Frame-Optimized"}
    ensures isFrame ==> r.headers["X-Frame-Optimized"] == "true"
    ensures isFrame ==> forall h :: h in response.headers && h != "X-Frame-Optimized" ==> r.headers[h] == response.headers[h]
  {
    if !isFrame then response
    else response.(headers := response.headers["X-Frame-Optimized" := "true"])
  }

  /** The query flag alone is not enough when the event has no headers. */
  lemma QueryFlagNeedsHeaders(e: Event)
    requires e.headers.None?
    requires e.query == Some(map["frame" := "true"])
    ensures !IsFrameRequest(Some(e))
  {
  }

  /** A user agent naming Farcaster anywhere marks a frame request. */
  lemma {:induction false} FarcasterAgentIsFrame(e: Event, before: string, after: string)
    requires e.headers.Some? && "user-agent" in e.headers.value
    requires e.headers.value["user-agent"] == before + "Farcaster" + after
    ensures IsFrameRequest(Some(e))
  {
    IncludesInfix(before, "Farcaster", after);
  }

  lemma {:induction false} IncludesInfix(before: string, sub: string, after: string)
    ensures Includes(before + sub + after, sub)
  {
    if before == [] {
      assert before + sub + after == sub + after;
    } else {
      IncludesInfix(before[1..], sub, after);
      assert (before + sub + after)[1..] == before[1..] + sub + after;
    }
  }
}
