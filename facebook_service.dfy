/**
 * The live-data normaliser (services/facebookService.ts): it turns the body the
 * server-side proxy returns for the Graph API insights query into the dashboard's
 * `DailyMetric` list, or reports "unavailable" with `None` (the source's `null`).
 *
 * The `fetch` itself is an input: `ProxyResponse` is what it produced.
 */
module FacebookService {
  import opened Wrappers
  import opened Types
  import Text

  const ReachMetric := "page_impressions_unique"
  const EngagementMetric := "page_post_engagements"

  /** One `{end_time, value}` point; either field may be absent. */
  datatype Point = Point(endTime: Option<string>, value: Option<int>)

  /** One named metric of the insights body; `values` may be absent. */
  datatype MetricSeries = MetricSeries(name: string, values: Option<seq<Point>>)

  /** The insights body: `{ data: [...] }`, where `data` may be absent. */
  datatype Payload = Payload(data: Option<seq<MetricSeries>>)

  /**
   * The outcome of the request to the proxy: the promise rejected (`Unreachable`),
   * or a response with its `ok` flag and its JSON body (`None` when the body is
   * not a JSON object, so that reading it throws).
   */
  datatype ProxyResponse = Unreachable | Response(ok: bool, body: Option<Payload>)

  /** `value || 0` for a Graph API count: a missing value reads as 0. */
  function ValueOrZero(v: Option<int>): int {
    v.GetOr(0)
  }

  /** `data.find(m => m.name === name)`, as the index of the first such series. */
  function FindSeries(data: seq<MetricSeries>, name: string): (r: Option<nat>)
    ensures r.Some? ==> r.value < |data| && data[r.value].name == name
    ensures r.Some? ==> forall j :: 0 <= j < r.value ==> data[j].name != name
    ensures r.None? ==> forall j :: 0 <= j < |data| ==> data[j].name != name
  {
    if data == [] then None
    else if data[0].name == name then Some(0)
    else match FindSeries(data[1..], name)
      case None => None
      case Some(j) => Some(j + 1)
  }

  /** `data.find(m => m.name === name)?.values || []`. */
  function SeriesValues(data: seq<MetricSeries>, name: string): seq<Point> {
    match FindSeries(data, name)
    case None => []
    case Some(j) => data[j].values.GetOr([])
  }

  /** `points.find(d => d.end_time === t)`, as the index of the first such point. */
  function FindPoint(points: seq<Point>, t: string): (r: Option<nat>)
    ensures r.Some? ==> r.value < |points| && points[r.value].endTime == Some(t)
    ensures r.Some? ==> forall j :: 0 <= j < r.value ==> points[j].endTime != Some(t)
    ensures r.None? ==> forall j :: 0 <= j < |points| ==> points[j].endTime != Some(t)
  {
    if points == [] then None
    else if points[0].endTime == Some(t) then Some(0)
    else match FindPoint(points[1..], t)
      case None => None
      case Some(j) => Some(j + 1)
  }

  /** The engagement count recorded for timestamp `t`, or 0 when there is none. */
  function EngagementAt(engagement: seq<Point>, t: string): int {
    match FindPoint(engagement, t)
    case None => 0
    case Some(j) => ValueOrZero(engagement[j].value)
  }

  /**
   * The estimated breakdown of an engagement count: 85% likes, 10% shares, 5%
   * comments, each rounded down (`Math.floor(e * 0.85)` and so on).
   */
  function Likes(e: int): int { e * 85 / 100 }
  function Shares(e: int): int { e * 10 / 100 }
  function Comments(e: int): int { e * 5 / 100 }

  /** The estimate never exceeds the engagement it splits, and is never negative for a count. */
  lemma BreakdownWithinEngagement(e: int)
    ensures Likes(e) + Shares(e) + Comments(e) <= e
    ensures e >= 0 ==> Likes(e) >= 0 && Shares(e) >= 0 && Comments(e) >= 0
    ensures e >= 0 ==> e - (Likes(e) + Shares(e) + Comments(e)) < 3
  {
    assert Likes(e) * 100 <= e * 85;
    assert Shares(e) * 100 <= e * 10;
    assert Comments(e) * 100 <= e * 5;
    assert Likes(e) * 100 > e * 85 - 100;
    assert Shares(e) * 100 > e * 10 - 100;
    assert Comments(e) * 100 > e * 5 - 100;
  }

  /** `m` is the entry the normaliser builds from reach point `p`. */
  predicate NormalizedFrom(m: DailyMetric, p: Point, engagement: seq<Point>) {
    && p.endTime.Some?
    && m.date == IsoText(Text.DatePart(p.endTime.value))
    && m.reach == ValueOrZero(p.value)
    && m.engagement == EngagementAt(engagement, p.endTime.value)
    && m.likes == Likes(m.engagement)
    && m.shares == Shares(m.engagement)
    && m.comments == Comments(m.engagement)
  }

  /**
   * `reachSeries.map(...)`: one entry per reach point, in order. A point without
   * `end_time` makes `split` throw, which the caller turns into `null`: here the
   * whole result is `None`.
   */
  function NormalizeSeries(reach: seq<Point>, engagement: seq<Point>): (r: Option<seq<DailyMetric>>)
    ensures r.Some? <==> forall k :: 0 <= k < |reach| ==> reach[k].endTime.Some?
    ensures r.Some? ==> |r.value| == |reach|
    ensures r.Some? ==> forall k :: 0 <= k < |reach| ==> NormalizedFrom(r.value[k], reach[k], engagement)
  {
    if reach == [] then Some([])
    else match reach[0].endTime
      case None => None
      case Some(t) =>
        var e := EngagementAt(engagement, t);
        var head := DailyMetric(IsoText(Text.DatePart(t)), ValueOrZero(reach[0].value), e, Likes(e), Shares(e), Comments(e));
        match NormalizeSeries(reach[1..], engagement)
        case None => None
        case Some(tail) =>
          assert forall k :: 1 <= k < |reach| ==> reach[1..][k - 1] == reach[k];
          Some([head] + tail)
  }

  /** The proxy answered with a usable JSON body whose `data` is a non-empty list. */
  predicate HasData(resp: ProxyResponse) {
    resp.Response? && resp.ok && resp.body.Some? && resp.body.value.data.Some? && resp.body.value.data.value != []
  }

  /** The reach points of a response with data (`[]` when there is no reach series). */
  function ReachPoints(resp: ProxyResponse): seq<Point>
    requires HasData(resp)
  {
    SeriesValues(resp.body.value.data.value, ReachMetric)
  }

  /**
   * `fetchRealFacebookData` after its `fetch`: `None` when the request failed,
   * the response is not ok, its body is unreadable, `data` is absent or empty, or
   * a reach point lacks `end_time`; otherwise one normalised entry per reach point.
   */
  function FetchRealFacebookData(resp: ProxyResponse): (r: Option<seq<DailyMetric>>)
    ensures r.Some? <==> HasData(resp) && forall k :: 0 <= k < |ReachPoints(resp)| ==> ReachPoints(resp)[k].endTime.Some?
    ensures r.Some? ==> |r.value| == |ReachPoints(resp)|
    ensures r.Some? ==> forall k :: 0 <= k < |r.value| ==>
      NormalizedFrom(r.value[k], ReachPoints(resp)[k], SeriesValues(resp.body.value.data.value, EngagementMetric))
  {
    if !HasData(resp) then None
    else
      var data := resp.body.value.data.value;
      assert ReachPoints(resp) == SeriesValues(data, ReachMetric);
      NormalizeSeries(SeriesValues(data, ReachMetric), SeriesValues(data, EngagementMetric))
  }

  /** A non-empty `data` without a reach series normalises to an empty list, not to `null`. */
  lemma NoReachSeriesGivesEmptyList(data: seq<MetricSeries>)
    requires data != []
    requires forall j :: 0 <= j < |data| ==> data[j].name != ReachMetric
    ensures FetchRealFacebookData(Response(true, Some(Payload(Some(data))))) == Some([])
  {
    var resp := Response(true, Some(Payload(Some(data))));
    assert FindSeries(data, ReachMetric).None?;
    assert ReachPoints(resp) == [];
  }

  /** Every unavailable case collapses to `None`. */
  lemma UnavailableGivesNone(ok: bool, body: Option<Payload>)
    requires !ok || body.None? || body.value.data.None? || body.value.data.value == []
    ensures FetchRealFacebookData(Unreachable) == None
    ensures FetchRealFacebookData(Response(ok, body)) == None
  {
  }

  /**
   * One reach point (1000 at `day`T`time`) with its matching engagement point (200)
   * gives the single entry `day` / 1000 / 200 / 170 / 20 / 10.
   */
  lemma SingleDayExample(day: string, time: string)
    requires 'T' !in day
    ensures
      var t := day + "T" + time;
      var data := [MetricSeries(ReachMetric, Some([Point(Some(t), Some(1000))])),
                   MetricSeries(EngagementMetric, Some([Point(Some(t), Some(200))]))];
      FetchRealFacebookData(Response(true, Some(Payload(Some(data)))))
        == Some([DailyMetric(IsoText(day), 1000, 200, 170, 20, 10)])
  {
    var t := day + "T" + time;
    Text.DatePartBeforeT(day, time);
    var reach, engagement := [Point(Some(t), Some(1000))], [Point(Some(t), Some(200))];
    var data := [MetricSeries(ReachMetric, Some(reach)), MetricSeries(EngagementMetric, Some(engagement))];
    assert EngagementMetric[5] != ReachMetric[5];
    assert FindSeries(data, ReachMetric) == Some(0);
    assert FindSeries(data, EngagementMetric) == Some(1);
    assert EngagementAt(engagement, t) == 200;
    assert Likes(200) == 170 && Shares(200) == 20 && Comments(200) == 10;
    var r := NormalizeSeries(reach, engagement);
    assert r.Some? && |r.value| == 1 && NormalizedFrom(r.value[0], reach[0], engagement);
    assert r.value == [DailyMetric(IsoText(day), 1000, 200, 170, 20, 10)];
  }
}
