/**
 * The dashboard's data orchestration and analysis state (App.tsx): `loadData`
 * decides between live and synthetic data and recomputes the aggregates;
 * `handleAnalyze` drives the insight panel's state. The component's state hooks
 * are the fields of `App`; each awaited call's outcome is a parameter.
 */
module Dashboard {
  import opened Wrappers
  import opened Types
  import FacebookService
  import MockData
  import Aggregates

  const MsPerDay := 86400000

  /** The selected date range: its two ISO date strings and their parsed millisecond times. */
  datatype DateRange = DateRange(start: string, end: string, startMs: int, endMs: int)

  /** The query `fetchRealFacebookData` sends to the proxy. */
  datatype LiveRequest = LiveRequest(startDate: string, endDate: string)

  /** The arguments `handleAnalyze` passes to `analyzeSocialInsights`. */
  datatype AnalyzeRequest = AnalyzeRequest(metrics: AggregateMetrics, platform: string, startDate: string, endDate: string)

  /** What `analyzeSocialInsights` settled with: its text and URLs, or the thrown error's message. */
  datatype AnalyzeOutcome = Analyzed(text: string, urls: seq<string>) | AnalyzeFailed(message: string)

  /**
   * `Math.ceil(Math.abs(end - start) / 86400000)`: the number of whole or partial
   * days between the two instants, in either order.
   */
  function DayCount(startMs: int, endMs: int): (n: nat)
    ensures var d := if endMs >= startMs then endMs - startMs else startMs - endMs;
      d <= n * MsPerDay && (n == 0 || (n - 1) * MsPerDay < d)
  {
    var d := if endMs >= startMs then endMs - startMs else startMs - endMs;
    (d + MsPerDay - 1) / MsPerDay
  }

  /** A range of exactly `k` days counts `k` days, whichever end comes first. */
  lemma DayCountOfWholeDays(startMs: int, k: nat)
    ensures DayCount(startMs, startMs + k * MsPerDay) == k
    ensures DayCount(startMs + k * MsPerDay, startMs) == k
  {
    var n := DayCount(startMs, startMs + k * MsPerDay);
    assert n * MsPerDay >= k * MsPerDay;
    assert n == 0 || (n - 1) * MsPerDay < k * MsPerDay;
  }

  /** Only these selections try the live source; Instagram has no live collaborator. */
  predicate AttemptsLive(p: Platform) {
    p == Facebook || p == All
  }

  /**
   * The live series `loadData` keeps: the normalised response, provided the
   * platform tries the live source and the result is a non-empty list.
   */
  function LiveSeries(p: Platform, resp: FacebookService.ProxyResponse): (r: Option<seq<DailyMetric>>)
    ensures r.Some? <==>
      AttemptsLive(p) && FacebookService.FetchRealFacebookData(resp).Some?
      && FacebookService.FetchRealFacebookData(resp).value != []
    ensures r.Some? ==> r.value == FacebookService.FetchRealFacebookData(resp).value
  {
    if !AttemptsLive(p) then None
    else
      match FacebookService.FetchRealFacebookData(resp)
      case Some(d) => if |d| > 0 then Some(d) else None
      case None => None
  }

  /**
   * The cases that fall back to synthetic data: Instagram whatever the response,
   * an unusable response, an empty `data` list, and a non-empty `data` without a
   * reach series (normalised to an empty list).
   */
  lemma {:induction false} FallbackCases(p: Platform, resp: FacebookService.ProxyResponse, data: seq<FacebookService.MetricSeries>)
    requires forall j :: 0 <= j < |data| ==> data[j].name != FacebookService.ReachMetric
    ensures LiveSeries(Instagram, resp) == None
    ensures !FacebookService.HasData(resp) ==> LiveSeries(p, resp) == None
    ensures LiveSeries(p, FacebookService.Response(true, Some(FacebookService.Payload(Some(data))))) == None
  {
    if data != [] {
      FacebookService.NoReachSeriesGivesEmptyList(data);
    }
  }

  /** Synthetic data always yields a rate between 0 and 100 percent. */
  lemma MockRateWithinPercent(p: Platform, days: nat, today: int, factors: seq<real>)
    requires |factors| == days + 1 && MockData.ValidFactors(factors)
    ensures var a := Aggregates.Aggregate(MockData.MockSeries(p, days, today, factors), p);
      0.0 <= a.engagementRate <= 100.0
  {
    var s := MockData.MockSeries(p, days, today, factors);
    MockData.MockSeriesPlausible(p, days, today, factors);
    assert forall k :: 0 <= k < |s| ==> s[k] in s;
    Aggregates.EngagementWithinReach(s);
    Aggregates.RateWithinPercent(Aggregates.TotalReach(s), Aggregates.TotalEngagement(s));
  }

  /** `err.message || "Failed to analyze."`. */
  function FailureText(message: string): (t: string)
    ensures t != []
    ensures message != [] ==> t == message
    ensures message == [] ==> t == "Failed to analyze."
  {
    if message == [] then "Failed to analyze." else message
  }

  class App {
    var platform: Platform
    var range: DateRange
    var chartData: seq<DailyMetric>
    var isRealData: bool
    var isDataLoading: bool
    var aggregates: AggregateMetrics
    var analysis: AnalysisState

    /** The component's initial state; the initial range is derived from the clock, so it is a parameter. */
    constructor (initialRange: DateRange)
      ensures platform == All && range == initialRange
      ensures chartData == [] && !isRealData && !isDataLoading
      ensures aggregates == AggregateMetrics(0, 0, 0, 0.0, "Video")
      ensures analysis == AnalysisState(false, None, [], None)
    {
      platform := All;
      range := initialRange;
      chartData := [];
      isRealData := false;
      isDataLoading := false;
      aggregates := AggregateMetrics(0, 0, 0, 0.0, "Video");
      analysis := AnalysisState(false, None, [], None);
    }

    /**
     * `loadData`: tries the live source for facebook and all, keeps a non-empty
     * normalised result and flags it live; otherwise generates
     * `DayCount(range) + 1` synthetic days and flags them simulated. Then it
     * recomputes the aggregates from the chosen series and clears the analysis.
     * `resp` is what the proxy request produced, `today` the current day number
     * and `factors` the random draws the generator consumes.
     */
    method LoadData(resp: FacebookService.ProxyResponse, today: int, factors: seq<real>) returns (request: Option<LiveRequest>)
      requires |factors| == DayCount(range.startMs, range.endMs) + 1
      modifies this
      ensures platform == old(platform) && range == old(range)
      ensures request == if AttemptsLive(platform) then Some(LiveRequest(range.start, range.end)) else None
      ensures isRealData == LiveSeries(platform, resp).Some?
      ensures chartData == match LiveSeries(platform, resp)
        case Some(live) => live
        case None => MockData.MockSeries(platform, DayCount(range.startMs, range.endMs), today, factors)
      ensures aggregates == Aggregates.Aggregate(chartData, platform)
      ensures analysis == old(analysis).(result := None, groundingUrls := [], error := None)
      ensures !isDataLoading
    {
      isDataLoading := true;
      var diffDays := DayCount(range.startMs, range.endMs);
      var data: Option<seq<DailyMetric>> := None;
      request := None;
      if platform == Facebook || platform == All {
        request := Some(LiveRequest(range.start, range.end));
        var fbData := FacebookService.FetchRealFacebookData(resp);
        if fbData.Some? && |fbData.value| > 0 {
          data := fbData;
          isRealData := true;
        }
      }
      if data.None? {
        var mock := MockData.GenerateMockData(diffDays, platform, today, factors);
        data := Some(mock);
        isRealData := false;
      }
      chartData := data.value;
      aggregates := Aggregates.Aggregate(chartData, platform);
      analysis := analysis.(result := None, groundingUrls := [], error := None);
      isDataLoading := false;
    }

    /** The synchronous start of `handleAnalyze`: loading on, error cleared, request sent. */
    method BeginAnalyze() returns (request: AnalyzeRequest)
      modifies this`analysis
      ensures analysis == old(analysis).(isLoading := true, error := None)
      ensures request == AnalyzeRequest(aggregates, PlatformName(platform), range.start, range.end)
    {
      analysis := analysis.(isLoading := true, error := None);
      request := AnalyzeRequest(aggregates, PlatformName(platform), range.start, range.end);
    }

    /**
     * The end of `handleAnalyze`: a result replaces the whole analysis state; a
     * failure keeps the previous result and URLs and shows the error.
     */
    method FinishAnalyze(outcome: AnalyzeOutcome)
      modifies this`analysis
      ensures !analysis.isLoading
      ensures outcome.Analyzed? ==> analysis == AnalysisState(false, Some(outcome.text), outcome.urls, None)
      ensures outcome.AnalyzeFailed? ==>
        analysis == old(analysis).(isLoading := false, error := Some(FailureText(outcome.message)))
    {
      match outcome
      case Analyzed(text, urls) =>
        analysis := AnalysisState(false, Some(text), urls, None);
      case AnalyzeFailed(message) =>
        analysis := analysis.(isLoading := false, error := Some(FailureText(message)));
    }

    /** `handleAnalyze` as a whole, with the service's outcome as a parameter. */
    method HandleAnalyze(outcome: AnalyzeOutcome) returns (request: AnalyzeRequest)
      modifies this`analysis
      ensures request == AnalyzeRequest(aggregates, PlatformName(platform), range.start, range.end)
      ensures outcome.Analyzed? ==> analysis == AnalysisState(false, Some(outcome.text), outcome.urls, None)
      ensures outcome.AnalyzeFailed? ==>
        analysis == AnalysisState(false, old(analysis.result), old(analysis.groundingUrls), Some(FailureText(outcome.message)))
    {
      request := BeginAnalyze();
      FinishAnalyze(outcome);
    }
  }
}
