/**
 * The Graph API proxy (api/facebook.ts): it resolves an access token, lists the
 * managed pages, picks the channel's page, asks for its daily insights over the
 * requested range and returns them verbatim. Both Graph API requests are inputs.
 */
module ApiFacebook {
  import opened Wrappers
  import Text
  import FacebookService

  /**
   * Stands for the non-empty page-management token embedded in the handler as the
   * fallback when the environment sets none; its value is not reproduced.
   */
  const EmbeddedToken := "<embedded token>"

  const InsightsMetrics := "page_impressions_unique,page_post_engagements"
  const InsightsPeriod := "day"

  datatype Page = Page(id: string, name: string, accessToken: string)

  /** The `/me/accounts` body; reading `data.find` throws when `data` is absent. */
  datatype Accounts = Accounts(data: Option<seq<Page>>)

  /**
   * The outcome of one Graph API request: the promise rejected, or a response with
   * its `ok` flag and its JSON body (`None` when it does not parse).
   */
  datatype GraphResult<T> = GraphUnreachable | GraphResponse(ok: bool, body: Option<T>)

  /** The query string parameters of the insights request. */
  datatype InsightsQuery = InsightsQuery(
    pageId: string,
    metric: string,
    period: string,
    since: string,
    until: string,
    accessToken: string)

  datatype ResponseBody = Insights(payload: FacebookService.Payload) | ErrorMessage(error: string)

  datatype Response = Response(status: int, body: ResponseBody)

  /** The token used for `/me/accounts`, the insights query sent (if any), and the response. */
  datatype Exchange = Exchange(accountsToken: string, insightsQuery: Option<InsightsQuery>, response: Response)

  /** `process.env.FACEBOOK_ACCESS_TOKEN || <embedded token>`: never empty. */
  function ResolveToken(env: Option<string>): (token: string)
    ensures token != []
    ensures !Text.Missing(env) ==> token == env.value
  {
    Text.OrElse(env, EmbeddedToken)
  }

  /** The page-name test: the lower-cased name mentions "walailak" or "channel". */
  predicate MatchesChannel(name: string) {
    Text.Contains(Text.Lower(name), "walailak") || Text.Contains(Text.Lower(name), "channel")
  }

  /** `pages.find(MatchesChannel)`, as the index of the first matching page. */
  function FirstMatch(pages: seq<Page>): (r: Option<nat>)
    ensures r.Some? ==> r.value < |pages| && MatchesChannel(pages[r.value].name)
    ensures r.Some? ==> forall j :: 0 <= j < r.value ==> !MatchesChannel(pages[j].name)
    ensures r.None? ==> forall j :: 0 <= j < |pages| ==> !MatchesChannel(pages[j].name)
  {
    if pages == [] then None
    else if MatchesChannel(pages[0].name) then Some(0)
    else match FirstMatch(pages[1..])
      case None => None
      case Some(j) => Some(j + 1)
  }

  /**
   * `pages.find(MatchesChannel) || pages[0]`, as an index: the first page whose name
   * matches, else the first page, and none only for an empty list.
   */
  function SelectPage(pages: seq<Page>): (r: Option<nat>)
    ensures r.None? <==> pages == []
    ensures r.Some? ==> r.value < |pages|
    ensures r.Some? && MatchesChannel(pages[r.value].name) ==>
      forall j :: 0 <= j < r.value ==> !MatchesChannel(pages[j].name)
    ensures r.Some? && !MatchesChannel(pages[r.value].name) ==>
      r.value == 0 && forall j :: 0 <= j < |pages| ==> !MatchesChannel(pages[j].name)
  {
    match FirstMatch(pages)
    case Some(i) => Some(i)
    case None => if pages == [] then None else Some(0)
  }

  /** A page named like the channel is chosen over every earlier non-matching page. */
  lemma SelectPrefersChannel(pages: seq<Page>, k: nat)
    requires k < |pages| && MatchesChannel(pages[k].name)
    ensures SelectPage(pages).Some? && SelectPage(pages).value <= k
    ensures MatchesChannel(pages[SelectPage(pages).value].name)
  {
  }

  /**
   * The handler. A failed or unreadable accounts request, or one without `data`,
   * gives 500; no pages gives 404; a failed or unreadable insights request gives
   * 500; otherwise the insights body is returned verbatim with 200. The insights
   * query uses the chosen page's id and token, the two metrics, a daily period and
   * the requested range.
   */
  function FacebookHandler(
    env: Option<string>, startDate: string, endDate: string,
    accounts: GraphResult<Accounts>, insights: GraphResult<FacebookService.Payload>): (x: Exchange)
    ensures x.accountsToken == ResolveToken(env)
    ensures x.response.status in {200, 404, 500}
    ensures x.response.status == 500 ==> x.response.body == ErrorMessage("Failed to fetch Facebook data")
    ensures x.response.status == 404 <==>
      accounts.GraphResponse? && accounts.ok && accounts.body.Some? && accounts.body.value.data == Some([])
    ensures x.response.status == 404 ==> x.response.body == ErrorMessage("No managed pages found.")
    ensures x.insightsQuery.Some? <==>
      accounts.GraphResponse? && accounts.ok && accounts.body.Some? && accounts.body.value.data.Some?
      && accounts.body.value.data.value != []
    ensures x.insightsQuery.Some? ==>
      var pages := accounts.body.value.data.value;
      var page := pages[SelectPage(pages).value];
      x.insightsQuery.value == InsightsQuery(page.id, InsightsMetrics, InsightsPeriod, startDate, endDate, page.accessToken)
    ensures x.response.status == 200 <==>
      x.insightsQuery.Some? && insights.GraphResponse? && insights.ok && insights.body.Some?
    ensures x.response.status == 200 ==> x.response.body == Insights(insights.body.value)
  {
    var token := ResolveToken(env);
    if token == [] then
      Exchange(token, None, Response(500, ErrorMessage("Server configuration error: Missing Facebook Token")))
    else if !(accounts.GraphResponse? && accounts.ok && accounts.body.Some? && accounts.body.value.data.Some?) then
      Exchange(token, None, Response(500, ErrorMessage("Failed to fetch Facebook data")))
    else
      var pages := accounts.body.value.data.value;
      match SelectPage(pages)
      case None => Exchange(token, None, Response(404, ErrorMessage("No managed pages found.")))
      case Some(i) =>
        var query := InsightsQuery(pages[i].id, InsightsMetrics, InsightsPeriod, startDate, endDate, pages[i].accessToken);
        if insights.GraphResponse? && insights.ok && insights.body.Some? then
          Exchange(token, Some(query), Response(200, Insights(insights.body.value)))
        else
          Exchange(token, Some(query), Response(500, ErrorMessage("Failed to fetch Facebook data")))
  }
}
