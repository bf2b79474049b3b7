/**
 * The historical-data function: an in-memory buffer of price snapshots,
 * capped at 144 points (a day at ten-minute intervals), filled on a cold
 * start and by a timer, and served filtered by period and projected onto one
 * chain or all of them.
 */
module HistoricalData {
  import opened Json
  import opened Core
  import opened Netlify

  const MaxDataPoints: nat := 144

  /** Milliseconds in a day. */
  const Day: int := 24 * 60 * 60 * 1000

  /** One snapshot. Prices are kept as the values the price feed gave. */
  datatype DataPoint = DataPoint(timestamp: int, ethereum: Value, optimism: Value, base: Value,
                                 osmosis: Value, ethPrice: Value)

  /** The snapshot taken at `now` from what `fetchPagePrices()` answered. */
  function PointOf(priceData: Value, now: int): DataPoint
  {
    DataPoint(now, Get(priceData, "ethereum"), Get(priceData, "optimism"), Get(priceData, "base"),
              Get(priceData, "osmosis"), Get(priceData, "ethPrice"))
  }

  /** The snapshot a fetch yields, if any: a rejected fetch yields none, and so
      does a `null` or `undefined` answer, since reading its first property
      throws a TypeError inside the same `try`. */
  function Snapshot(priceData: Result<Value>, now: int): (r: Option<DataPoint>)
    ensures r.None? <==> priceData.Fail? || priceData.value == Null || priceData.value == Undefined
    ensures r.Some? ==> r.value.timestamp == now && r.value == PointOf(priceData.value, now)
  {
    match priceData
    case Fail(_) => None
    case Ok(v) => if v == Null || v == Undefined then None else Some(PointOf(v, now))
  }

  /** The newest `MaxDataPoints` elements of `s`, in order. */
  function Latest(s: seq<DataPoint>): (r: seq<DataPoint>)
    ensures |r| <= MaxDataPoints
    ensures |s| <= MaxDataPoints ==> r == s
  {
    if |s| <= MaxDataPoints then s else s[|s| - MaxDataPoints..]
  }

  /** The buffer after `addDataPoint(p)`: push, then drop the oldest point if
      over the cap. */
  function Appended(points: seq<DataPoint>, p: DataPoint): seq<DataPoint>
  {
    var pushed := points + [p];
    if |pushed| > MaxDataPoints then pushed[1..] else pushed
  }

  /** On a buffer within the cap, adding keeps exactly the newest points: the
      new point is last, at most the oldest one is dropped, and the rest keep
      their order. */
  lemma AppendKeepsLatest(points: seq<DataPoint>, p: DataPoint)
    requires |points| <= MaxDataPoints
    ensures Appended(points, p) == Latest(points + [p])
    ensures |Appended(points, p)| <= MaxDataPoints
    ensures Appended(points, p)[|Appended(points, p)| - 1] == p
    ensures |points| < MaxDataPoints ==> Appended(points, p) == points + [p]
    ensures |points| == MaxDataPoints ==> Appended(points, p) == points[1..] + [p]
  {
  }

  /** The buffer after adding the given points one after the other. */
  function Feed(points: seq<DataPoint>, ps: seq<DataPoint>): seq<DataPoint>
  {
    if ps == [] then points
    else Appended(Feed(points, ps[..|ps| - 1]), ps[|ps| - 1])
  }

  lemma LatestOfLatest(s: seq<DataPoint>, p: DataPoint)
    ensures Latest(Latest(s) + [p]) == Latest(s + [p])
  {
    if |s| > MaxDataPoints {
      var t := s[|s| - MaxDataPoints..];
      assert (t + [p])[1..] == (s + [p])[|s + [p]| - MaxDataPoints..];
    }
  }

  /** However many points are added, the buffer holds the newest 144 of all
      points ever added, oldest first. */
  lemma {:induction false} FeedKeepsLatest(points: seq<DataPoint>, ps: seq<DataPoint>)
    requires |points| <= MaxDataPoints
    ensures Feed(points, ps) == Latest(points + ps)
  {
    if ps != [] {
      var init := ps[..|ps| - 1];
      var last := ps[|ps| - 1];
      FeedKeepsLatest(points, init);
      AppendKeepsLatest(Feed(points, init), last);
      LatestOfLatest(points + init, last);
      assert points + init + [last] == points + ps;
    }
  }

  /** `Window(period)`: how far back a period reaches, `None` for a period
      that applies no filter. */
  function Window(period: string): Option<int>
  {
    if period == "24h" then Some(Day)
    else if period == "7d" then Some(7 * Day)
    else if period == "30d" then Some(30 * Day)
    else None
  }

  /** `points.filter(dp => dp.timestamp > since)` */
  function Recent(points: seq<DataPoint>, since: int): (r: seq<DataPoint>)
    ensures |r| <= |points|
    ensures forall k :: 0 <= k < |r| ==> r[k].timestamp > since && r[k] in points
    ensures forall k :: 0 <= k < |points| && points[k].timestamp > since ==> points[k] in r
  {
    if points == [] then []
    else (if points[0].timestamp > since then [points[0]] else []) + Recent(points[1..], since)
  }

  /** Timestamps never decrease along the buffer. */
  predicate Chronological(points: seq<DataPoint>)
  {
    forall i, j :: 0 <= i < j < |points| ==> points[i].timestamp <= points[j].timestamp
  }

  /** In a chronological buffer, a period keeps a suffix: the newest points,
      in their order. */
  lemma {:induction false} RecentIsSuffix(points: seq<DataPoint>, since: int)
    requires Chronological(points)
    ensures exists k :: 0 <= k <= |points| && Recent(points, since) == points[k..]
  {
    if points == [] {
      assert Recent(points, since) == points[0..];
    } else if points[0].timestamp > since {
      forall k | 0 <= k < |points| ensures points[k].timestamp > since {
        if k > 0 { assert points[0].timestamp <= points[k].timestamp; }
      }
      AllRecent(points, since);
      assert Recent(points, since) == points[0..];
    } else {
      RecentIsSuffix(points[1..], since);
      var k :| 0 <= k <= |points[1..]| && Recent(points[1..], since) == points[1..][k..];
      assert points[1..][k..] == points[k + 1..];
    }
  }

  lemma {:induction false} AllRecent(points: seq<DataPoint>, since: int)
    requires forall k :: 0 <= k < |points| ==> points[k].timestamp > since
    ensures Recent(points, since) == points
  {
    if points != [] {
      AllRecent(points[1..], since);
    }
  }

  /** The points the handler serves for a period: the period's window, or the
      whole buffer when the window is empty or the period unknown. */
  function Filtered(points: seq<DataPoint>, period: string, now: int): seq<DataPoint>
  {
    var windowed := match Window(period)
                    case None => points
                    case Some(w) => Recent(points, now - w);
    if windowed == [] then points else windowed
  }

  /** Filtering never empties a non-empty buffer, never invents a point, and
      an unknown period or an empty window gives the whole buffer. */
  lemma FilteredShape(points: seq<DataPoint>, period: string, now: int)
    ensures points != [] ==> Filtered(points, period, now) != []
    ensures forall k :: 0 <= k < |Filtered(points, period, now)| ==> Filtered(points, period, now)[k] in points
    ensures Window(period).None? ==> Filtered(points, period, now) == points
    ensures Window(period).Some? && Recent(points, now - Window(period).value) == [] ==>
              Filtered(points, period, now) == points
    ensures Window(period).Some? && Recent(points, now - Window(period).value) != [] ==>
              forall k :: 0 <= k < |Filtered(points, period, now)| ==>
                Filtered(points, period, now)[k].timestamp > now - Window(period).value
  {
  }

  /** `dp[chain]`: any property name is read, a non-chain one included. */
  function FieldOf(dp: DataPoint, key: string): Value
  {
    if key == "timestamp" then Num(dp.timestamp)
    else if key == "ethereum" then dp.ethereum
    else if key == "optimism" then dp.optimism
    else if key == "base" then dp.base
    else if key == "osmosis" then dp.osmosis
    else if key == "ethPrice" then dp.ethPrice
    else Undefined
  }

  /** One served point: every field for 'all', else `{timestamp, price}`. */
  function Project(dp: DataPoint, chain: string): Value
  {
    if chain == "all" then
      Obj(map["timestamp" := Num(dp.timestamp), "ethereum" := dp.ethereum, "optimism" := dp.optimism,
              "base" := dp.base, "osmosis" := dp.osmosis, "ethPrice" := dp.ethPrice])
    else Obj(map["timestamp" := Num(dp.timestamp), "price" := FieldOf(dp, chain)])
  }

  /** The response body for a query, given the buffer and the time. */
  function HistoryBody(points: seq<DataPoint>, q: map<string, string>, now: int): Value
  {
    var chain := OrStr(Param(q, "chain"), "all");
    var period := OrStr(Param(q, "period"), "24h");
    var served := Filtered(points, period, now);
    var dataPoints := Arr(seq(|served|, k requires 0 <= k < |served| => Project(served[k], chain)));
    if chain == "all" then Obj(map["period" := Str(period), "dataPoints" := dataPoints])
    else Obj(map["chain" := Str(chain), "period" := Str(period), "dataPoints" := dataPoints])
  }

  /** The fixed headers of this handler, with a 60-second cache lifetime. */
  const HistoryHeaders: map<string, string> := CorsHeaders["Cache-Control" := "public, max-age=60"]

  /** The served body: one point per kept snapshot, in buffer order, with the
      query's chain and period (24 hours and all chains by default); a single
      chain's price is read from the snapshot without checking the name. */
  lemma BodyShape(points: seq<DataPoint>, q: map<string, string>, now: int)
    ensures var chain := OrStr(Param(q, "chain"), "all");
            var period := OrStr(Param(q, "period"), "24h");
            var body := HistoryBody(points, q, now);
            var served := Filtered(points, period, now);
            && Get(body, "period") == Str(period)
            && (chain == "all" <==> Get(body, "chain") == Undefined)
            && Get(body, "dataPoints").Arr?
            && |Get(body, "dataPoints").elems| == |served|
            && (forall k :: 0 <= k < |served| && chain != "all" ==>
                  Get(Get(body, "dataPoints").elems[k], "price") == FieldOf(served[k], chain)
                  && Get(Get(body, "dataPoints").elems[k], "timestamp") == Num(served[k].timestamp))
  {
  }

  /** Asking for the 'timestamp' chain serves each point's timestamp as its
      price. */
  lemma ChainNameUnchecked(dp: DataPoint)
    ensures Get(Project(dp, "timestamp"), "price") == Num(dp.timestamp)
  {
  }

  /** The module-level `historicalData` array and the functions that update it. */
  class History {
    var points: seq<DataPoint>

    ghost predicate Valid()
      reads this
    {
      |points| <= MaxDataPoints
    }

    constructor()
      ensures Valid() && points == []
    {
      points := [];
    }

    /** `addDataPoint(dataPoint)` */
    method AddDataPoint(dataPoint: DataPoint)
      requires Valid()
      modifies this
      ensures Valid()
      ensures points == Appended(old(points), dataPoint)
    {
      points := points + [dataPoint];
      if |points| > MaxDataPoints {
        points := points[1..];
      }
    }

    /** `initializeHistoricalData()`: only an empty buffer takes a first
        snapshot; a fetch that yields none leaves it empty. */
    method InitializeHistoricalData(priceData: Result<Value>, now: int)
      requires Valid()
      modifies this
      ensures Valid()
      ensures old(points) != [] ==> points == old(points)
      ensures old(points) == [] && Snapshot(priceData, now).Some? ==> points == [Snapshot(priceData, now).value]
      ensures old(points) == [] && Snapshot(priceData, now).None? ==> points == []
    {
      if |points| == 0 {
        var snapshot := Snapshot(priceData, now);
        if snapshot.Some? {
          AddDataPoint(snapshot.value);
        }
      }
    }

    /** The body of the ten-minute timer: one snapshot per fetch that yields one. */
    method Refresh(priceData: Result<Value>, now: int)
      requires Valid()
      modifies this
      ensures Valid()
      ensures Snapshot(priceData, now).Some? ==> points == Appended(old(points), Snapshot(priceData, now).value)
      ensures Snapshot(priceData, now).None? ==> points == old(points)
    {
      var snapshot := Snapshot(priceData, now);
      if snapshot.Some? {
        AddDataPoint(snapshot.value);
      }
    }

    /** The handler: a cold-start snapshot taken at `initTime` if the buffer is
        empty, then the response computed at `now`. */
    method Handle(q: map<string, string>, priceData: Result<Value>, initTime: int, now: int)
      returns (r: Response)
      requires Valid()
      modifies this
      ensures Valid()
      ensures points == if old(points) == [] && Snapshot(priceData, initTime).Some?
                        then [Snapshot(priceData, initTime).value] else old(points)
      ensures r == Response(200, HistoryHeaders, HistoryBody(points, q, now))
    {
      InitializeHistoricalData(priceData, initTime);
      r := Response(200, HistoryHeaders, HistoryBody(points, q, now));
    }
  }
}
