/**
 * The metrics function: routing on the metric type, and the historical-data
 * endpoint, which validates its parameters and serves a mock series. The
 * price, TVL and summary endpoints compute floating-point figures from
 * remote prices; their data enter as an input.
 */
module Metrics {
  import opened Json
  import opened Core
  import opened Netlify
  import opened Sorting
  import opened ResponseFormatter
  import opened ErrorHandler
  import opened FrameDetection

  datatype MetricType = TokenPrices | NetworkComparison | HistoricalSeries | Tvl | Summary

  /** `path[0] || 'summary'`, then the `switch`: anything unknown is the
      summary. */
  function MetricTypeOf(path: seq<string>): (m: MetricType)
    ensures m == TokenPrices <==> Segment(path, 0) == "token-prices"
    ensures m == NetworkComparison <==> Segment(path, 0) == "network-comparison"
    ensures m == HistoricalSeries <==> Segment(path, 0) == "historical-data"
    ensures m == Tvl <==> Segment(path, 0) == "tvl"
  {
    var name := OrStr(Segment(path, 0), "summary");
    if name == "token-prices" then TokenPrices
    else if name == "network-comparison" then NetworkComparison
    else if name == "historical-data" then HistoricalSeries
    else if name == "tvl" then Tvl
    else Summary
  }

  const Hour: int := 60 * 60 * 1000
  const Day: int := 24 * Hour

  /** How many points a period has; an unknown period is treated as '24h'. */
  function Count(period: string): nat
  {
    if period == "7d" then 7 else if period == "30d" then 30 else 24
  }

  /** How far apart a period's points are. */
  function Interval(period: string): (interval: int)
    ensures interval > 0
  {
    if period == "7d" || period == "30d" then Day else Hour
  }

  /** A mock point: every chain's price for 'all', else one price. The
      random prices are drawn by `draw(key, i)`, `key` naming the base price
      and `i` the point. */
  datatype MockPoint =
    | AllChains(timestamp: int, ethereum: Value, optimism: Value, base: Value, osmosis: Value, ethPrice: Value)
    | OneChain(timestamp: int, price: Value)

  type Draw = (string, nat) -> Value

  /** The base price a single chain's series is drawn around: 'osmosis' for
      any chain other than the first three. */
  function PriceKey(chain: string): (key: string)
    ensures key in {"ethereum", "optimism", "base", "osmosis"}
    ensures chain in {"ethereum", "optimism", "base"} ==> key == chain
  {
    if chain == "ethereum" || chain == "optimism" || chain == "base" then chain else "osmosis"
  }

  function MockAt(chain: string, timestamp: int, draw: Draw, i: nat): MockPoint
  {
    if chain == "all" then
      AllChains(timestamp, draw("ethereum", i), draw("optimism", i), draw("base", i), draw("osmosis", i), draw("ethPrice", i))
    else OneChain(timestamp, draw(PriceKey(chain), i))
  }

  /** The points in the order the loop pushes them: point `i` is taken
      `i` intervals before `now`. */
  function Generated(chain: string, period: string, now: int, draw: Draw): seq<MockPoint>
  {
    seq(Count(period), i requires 0 <= i < Count(period) => MockAt(chain, now - i * Interval(period), draw, i))
  }

  /** `(a, b) => a.timestamp - b.timestamp` as a "may come first" relation. */
  function ByTime(): (MockPoint, MockPoint) -> bool
  {
    (a: MockPoint, b: MockPoint) => a.timestamp <= b.timestamp
  }

  /** The served series: the generated points sorted by timestamp. */
  function Series(chain: string, period: string, now: int, draw: Draw): seq<MockPoint>
  {
    SortBy(Generated(chain, period, now, draw), ByTime())
  }

  /** `generateMockHistoricalData(chain, period)` at time `now`. */
  method GenerateMockHistoricalData(chain: string, period: string, now: int, draw: Draw)
    returns (dataPoints: seq<MockPoint>)
    ensures dataPoints == Series(chain, period, now, draw)
  {
    var n: nat, interval: int;
    if period == "24h" {
      n, interval := 24, 60 * 60 * 1000;
    } else if period == "7d" {
      n, interval := 7, 24 * 60 * 60 * 1000;
    } else if period == "30d" {
      n, interval := 30, 24 * 60 * 60 * 1000;
    } else {
      n, interval := 24, 60 * 60 * 1000;
    }
    dataPoints := [];
    var i := 0;
    while i < n
      invariant 0 <= i <= n
      invariant |dataPoints| == i
      invariant forall k :: 0 <= k < i ==> dataPoints[k] == MockAt(chain, now - k * interval, draw, k)
    {
      var timestamp := now - i * interval;
      if chain == "all" {
        dataPoints := dataPoints + [AllChains(timestamp, draw("ethereum", i), draw("optimism", i), draw("base", i),
                                              draw("osmosis", i), draw("ethPrice", i))];
      } else {
        dataPoints := dataPoints + [OneChain(timestamp, draw(PriceKey(chain), i))];
      }
      i := i + 1;
    }
    assert dataPoints == Generated(chain, period, now, draw);
    dataPoints := SortBy(dataPoints, ByTime());
  }

  /** Inserting a point newer than every point of `s` appends it. */
  lemma {:induction false} InsertNewest(x: MockPoint, s: seq<MockPoint>)
    requires forall k :: 0 <= k < |s| ==> s[k].timestamp < x.timestamp
    ensures Insert(x, s, ByTime()) == s + [x]
  {
    if s != [] {
      assert !ByTime()(x, s[0]);
      InsertNewest(x, s[1..]);
      assert s == [s[0]] + s[1..];
    }
  }

  function Reversed<T>(s: seq<T>): (r: seq<T>)
    ensures |r| == |s|
    ensures forall k :: 0 <= k < |s| ==> r[k] == s[|s| - 1 - k]
  {
    if s == [] then [] else Reversed(s[1..]) + [s[0]]
  }

  /** Sorting points whose timestamps strictly decrease reverses them. */
  lemma {:induction false} SortDescending(s: seq<MockPoint>)
    requires forall i, j :: 0 <= i < j < |s| ==> s[i].timestamp > s[j].timestamp
    ensures SortBy(s, ByTime()) == Reversed(s)
  {
    if s != [] {
      SortDescending(s[1..]);
      InsertNewest(s[0], Reversed(s[1..]));
    }
  }

  /** The loop pushes points newest first. */
  lemma GeneratedDescending(chain: string, period: string, now: int, draw: Draw)
    ensures var g := Generated(chain, period, now, draw);
            forall i, j :: 0 <= i < j < |g| ==> g[i].timestamp > g[j].timestamp
  {
    var g := Generated(chain, period, now, draw);
    var interval := Interval(period);
    forall i, j | 0 <= i < j < |g| ensures g[i].timestamp > g[j].timestamp {
      MulMonotone(i, j, interval);
    }
  }

  lemma MulMonotone(i: int, j: int, d: int)
    requires i < j && d > 0
    ensures i * d < j * d
  {
  }

  /** The series has one point per step of the period, oldest first: point k
      is the one pushed at step `n - 1 - k`, taken `n - 1 - k` intervals
      before `now`, so the last is taken at `now`. Its points carry every
      chain exactly when the chain is 'all'. */
  lemma SeriesShape(chain: string, period: string, now: int, draw: Draw)
    ensures var s := Series(chain, period, now, draw);
            var n := Count(period);
            && |s| == n
            && (forall k :: 0 <= k < n ==>
                  s[k] == MockAt(chain, now - (n - 1 - k) * Interval(period), draw, n - 1 - k))
            && (forall k :: 0 <= k < n ==> (s[k].AllChains? <==> chain == "all"))
            && (forall i, j :: 0 <= i < j < n ==> s[i].timestamp < s[j].timestamp)
  {
    SeriesReversed(chain, period, now, draw);
    ReversedPoints(chain, period, now, draw);
    ReversedAscending(chain, period, now, draw);
  }

  /** The pushed points in reverse order: each is the one pushed at step
      `n - 1 - k`, and carries every chain exactly when the chain is 'all'. */
  lemma ReversedPoints(chain: string, period: string, now: int, draw: Draw)
    ensures var r := Reversed(Generated(chain, period, now, draw));
            var n := Count(period);
            && |r| == n
            && (forall k :: 0 <= k < n ==>
                  r[k] == MockAt(chain, now - (n - 1 - k) * Interval(period), draw, n - 1 - k))
            && (forall k :: 0 <= k < n ==> (r[k].AllChains? <==> chain == "all"))
  {
    var r := Reversed(Generated(chain, period, now, draw));
    var n := Count(period);
    forall k | 0 <= k < n
      ensures r[k] == MockAt(chain, now - (n - 1 - k) * Interval(period), draw, n - 1 - k)
      ensures r[k].AllChains? <==> chain == "all"
    {
      ReversedAt(chain, period, now, draw, k);
    }
  }

  /** The pushed points in reverse order are strictly ascending in time. */
  lemma ReversedAscending(chain: string, period: string, now: int, draw: Draw)
    ensures var r := Reversed(Generated(chain, period, now, draw));
            forall i, j :: 0 <= i < j < |r| ==> r[i].timestamp < r[j].timestamp
  {
    var r := Reversed(Generated(chain, period, now, draw));
    var n := Count(period);
    var d := Interval(period);
    forall i, j | 0 <= i < j < |r| ensures r[i].timestamp < r[j].timestamp {
      ReversedTimestamp(chain, period, now, draw, i);
      ReversedTimestamp(chain, period, now, draw, j);
      MulMonotone(n - 1 - j, n - 1 - i, d);
    }
  }

  /** Point k of the reversed pushes is taken `n - 1 - k` intervals before `now`. */
  lemma ReversedTimestamp(chain: string, period: string, now: int, draw: Draw, k: nat)
    requires k < Count(period)
    ensures Reversed(Generated(chain, period, now, draw))[k].timestamp
         == now - (Count(period) - 1 - k) * Interval(period)
  {
    ReversedAt(chain, period, now, draw, k);
  }

  /** Point k of the reversed pushes is the one pushed at step `n - 1 - k`,
      taken `n - 1 - k` intervals before `now`. */
  lemma ReversedAt(chain: string, period: string, now: int, draw: Draw, k: nat)
    requires k < Count(period)
    ensures var n := Count(period);
            var r := Reversed(Generated(chain, period, now, draw));
            && r[k] == MockAt(chain, now - (n - 1 - k) * Interval(period), draw, n - 1 - k)
            && r[k].timestamp == now - (n - 1 - k) * Interval(period)
  {
    var g := Generated(chain, period, now, draw);
    var step := Count(period) - 1 - k;
    var p := MockAt(chain, now - step * Interval(period), draw, step);
    assert g[step] == p;
    assert Reversed(g)[k] == g[step];
    assert p.timestamp == now - step * Interval(period);
  }

  /** Sorting the pushed points reverses them. */
  lemma SeriesReversed(chain: string, period: string, now: int, draw: Draw)
    ensures Series(chain, period, now, draw) == Reversed(Generated(chain, period, now, draw))
  {
    GeneratedDescending(chain, period, now, draw);
    SortDescending(Generated(chain, period, now, draw));
  }

  /** The 24-hour series is hourly, the week and the month daily. */
  lemma PeriodShapes()
    ensures Count("24h") == 24 && Interval("24h") == 60 * 60 * 1000
    ensures Count("7d") == 7 && Interval("7d") == 24 * 60 * 60 * 1000
    ensures Count("30d") == 30 && Interval("30d") == 24 * 60 * 60 * 1000
  {
  }

  function MockValue(p: MockPoint): Value
  {
    match p
    case AllChains(t, e, o, b, s, ep) =>
      Obj(map["timestamp" := Num(t), "ethereum" := e, "optimism" := o, "base" := b, "osmosis" := s, "ethPrice" := ep])
    case OneChain(t, price) => Obj(map["timestamp" := Num(t), "price" := price])
  }

  function MockValues(s: seq<MockPoint>): Value
  {
    Arr(seq(|s|, k requires 0 <= k < |s| => MockValue(s[k])))
  }

  const ValidChains: seq<string> := ["ethereum", "optimism", "base", "osmosis", "all"]
  const ValidPeriods: seq<string> := ["24h", "7d", "30d"]

  /** The validation of `handleHistoricalData`: the chain is checked first. */
  function Validate(chain: string, period: string): (r: Result<()>)
    ensures r.Ok? <==> chain in ValidChains && period in ValidPeriods
    ensures r.Fail? ==> r.error.code == "INVALID_PARAM"
    ensures chain !in ValidChains ==> r == Fail(Throw("INVALID_PARAM", "Invalid chain: " + chain))
  {
    if chain !in ValidChains then Fail(Throw("INVALID_PARAM", "Invalid chain: " + chain))
    else if period !in ValidPeriods then Fail(Throw("INVALID_PARAM", "Invalid period: " + period))
    else Ok(())
  }

  const SeriesHeaders: map<string, string> := map["Cache-Control" := "public, max-age=300"]
  const PriceHeaders: map<string, string> := map["Cache-Control" := "public, max-age=60"]

  /** The data of the historical endpoint, `chain` left undefined for 'all'. */
  function SeriesData(chain: string, period: string, s: seq<MockPoint>): Value
  {
    Obj(map["chain" := if chain != "all" then Str(chain) else Undefined, "period" := Str(period),
            "dataPoints" := MockValues(s)])
  }

  /** `handleHistoricalData(params, isFrame)`, or what it throws. */
  function HistoricalAnswer(q: map<string, string>, isFrame: bool, draw: Draw, ctx: Context): Result<Response>
  {
    var chain := OrStr(Param(q, "chain"), "all");
    var period := OrStr(Param(q, "period"), "24h");
    match Validate(chain, period)
    case Fail(e) => Fail(e)
    case Ok(_) =>
      Ok(CreateResponse(SeriesData(chain, period, Series(chain, period, ctx.now, draw)), 200, SeriesHeaders, isFrame, ctx))
  }

  /** The whole handler. `rateLimit` is what `rateLimitCheck(event)`
      answered; `priced(m)` is the data a price, TVL or summary endpoint
      computed, or what it threw. */
  function MetricsResponse(event: Event, rateLimit: Option<Response>, priced: MetricType -> Result<Value>,
                           draw: Draw, ctx: Context): Response
  {
    var isFrame := IsFrameRequest(Some(event));
    var m := MetricTypeOf(event.path);
    var answer :=
      if m == HistoricalSeries then HistoricalAnswer(QueryOf(event), isFrame, draw, ctx)
      else match priced(m)
        case Fail(e) => Fail(e)
        case Ok(data) => Ok(CreateResponse(data, 200, PriceHeaders, isFrame, ctx));
    if rateLimit.Some? then rateLimit.value
    else match answer
      case Fail(e) => HandleError(e, isFrame, ctx)
      case Ok(response) => OptimizeForFrame(response, isFrame)
  }

  /** The handler, generating the series with the loop above. */
  method Handle(event: Event, rateLimit: Option<Response>, priced: MetricType -> Result<Value>, draw: Draw, ctx: Context)
    returns (r: Response)
    ensures r == MetricsResponse(event, rateLimit, priced, draw, ctx)
  {
    if rateLimit.Some? {
      return rateLimit.value;
    }
    var isFrame := IsFrameRequest(Some(event));
    var m := MetricTypeOf(event.path);
    var answer: Result<Response>;
    if m == HistoricalSeries {
      var q := QueryOf(event);
      var chain := OrStr(Param(q, "chain"), "all");
      var period := OrStr(Param(q, "period"), "24h");
      var valid := Validate(chain, period);
      if valid.Fail? {
        answer := Fail(valid.error);
      } else {
        var dataPoints := GenerateMockHistoricalData(chain, period, ctx.now, draw);
        answer := Ok(CreateResponse(SeriesData(chain, period, dataPoints), 200, SeriesHeaders, isFrame, ctx));
      }
    } else {
      var data := priced(m);
      answer := if data.Fail? then Fail(data.error) else Ok(CreateResponse(data.value, 200, PriceHeaders, isFrame, ctx));
    }
    r := if answer.Fail? then HandleError(answer.error, isFrame, ctx) else OptimizeForFrame(answer.value, isFrame);
  }

  /** A missing or unknown metric type is answered by the summary. */
  lemma UnknownTypeIsSummary(path: seq<string>)
    requires Segment(path, 0) !in {"token-prices", "network-comparison", "historical-data", "tvl"}
    ensures MetricTypeOf(path) == Summary
  {
  }

  /** Without parameters the endpoint serves 24 hourly points for all chains
      and leaves `chain` out of the data. */
  lemma HistoricalDefaults(isFrame: bool, draw: Draw, ctx: Context)
    ensures var a := HistoricalAnswer(map[], isFrame, draw, ctx);
            var data := Get(a.value.body, "data");
            && a.Ok?
            && Get(data, "chain") == Undefined
            && Get(data, "period") == Str("24h")
            && Get(data, "dataPoints") == MockValues(Series("all", "24h", ctx.now, draw))
            && |Series("all", "24h", ctx.now, draw)| == 24
  {
    assert Validate("all", "24h") == Ok(());
    assert HistoricalAnswer(map[], isFrame, draw, ctx)
        == Ok(CreateResponse(SeriesData("all", "24h", Series("all", "24h", ctx.now, draw)), 200, SeriesHeaders, isFrame, ctx));
  }

  /** A bad chain or period is a 400 through `handleError`, and a bad chain is
      reported even when the period is bad too. */
  lemma InvalidParamsAre400(event: Event, priced: MetricType -> Result<Value>, draw: Draw, ctx: Context)
    requires Segment(event.path, 0) == "historical-data"
    requires var q := QueryOf(event);
             OrStr(Param(q, "chain"), "all") !in ValidChains || OrStr(Param(q, "period"), "24h") !in ValidPeriods
    ensures MetricsResponse(event, None, priced, draw, ctx).statusCode == 400
    ensures ErrorMessage(MetricsResponse(event, None, priced, draw, ctx)) == "Invalid request parameters"
    ensures var chain := OrStr(Param(QueryOf(event), "chain"), "all");
            chain !in ValidChains ==>
              HistoricalAnswer(QueryOf(event), IsFrameRequest(Some(event)), draw, ctx)
              == Fail(Throw("INVALID_PARAM", "Invalid chain: " + chain))
  {
  }

  /** The served data points are the series, one value per point, with a
      single chain's points holding only a timestamp and a price. */
  lemma SeriesValues(chain: string, period: string, now: int, draw: Draw)
    requires chain != "all"
    ensures var s := Series(chain, period, now, draw);
            forall k :: 0 <= k < |s| ==>
              s[k].OneChain? && MockValues(s).elems[k] == Obj(map["timestamp" := Num(s[k].timestamp), "price" := s[k].price])
  {
    var s := Series(chain, period, now, draw);
    SeriesShape(chain, period, now, draw);
    forall k | 0 <= k < |s| ensures MockValues(s).elems[k] == Obj(map["timestamp" := Num(s[k].timestamp), "price" := s[k].price]) {
      assert s[k].OneChain?;
    }
  }
}
