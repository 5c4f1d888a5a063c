# Social dashboard data pipeline — Dafny model

This project models the data side of a social-media performance dashboard for the
"Walailak Channel" pages. It covers:

- the normaliser that turns a Graph API insights payload into per-day metrics
  (`FacebookService`);
- the synthetic generator used when no live data is available (`MockData`);
- the orchestration that picks live or synthetic data and recomputes the summary
  statistics (`Dashboard`, `Aggregates`);
- the insight panel's and the chat panel's state transitions (`Dashboard.App`,
  `ChatInterface.ChatPanel`);
- the three serverless handlers: the Graph API proxy (`ApiFacebook`), the analysis
  endpoint (`ApiAnalyze`) and the chat endpoint (`ApiChat`).

Everything the dashboard obtains from outside is a parameter:
- the outcome of each `fetch` or SDK call;
- the random factor drawn for each synthetic day;
- the current day number and the clock readings;
- the parsed millisecond times of the date range;
- environment variables.

Handlers return the request they would send next to their collaborator beside the
HTTP response. That makes "no model call before the key check" and "Instagram never
asks for live data" statements about values.

Files, one module each: `wrappers.dfy` (Option), `types.dfy` (the shared records of
types.ts), `text.dfy` (the JavaScript string operations used: `split('T')[0]`,
`toLowerCase`, `includes`, `trim`, `||` on strings), `facebook_service.dfy`,
`mock_data.dfy`, `aggregates.dfy`, `dashboard.dfy`, `chat_interface.dfy`,
`api_facebook.dfy`, `api_analyze.dfy`, `api_chat.dfy`.

Form follows the source:
- The normaliser, the aggregates and the chat and Facebook handlers are pure functions.
- `generateMockData` is a method with the source's descending loop. It is proved
  equal to the specification function `MockSeries`, and the properties are lemmas
  about `MockSeries`.
- The URL collection and the `Set`-based de-duplication of the analysis handler are
  loops proved against `WebUris` and `Distinct`.
- The App component's and the chat panel's state hooks are fields of the classes
  `Dashboard.App` and `ChatInterface.ChatPanel`. Their methods state the whole new state.

Behaviours of the code worth knowing, all modelled as written:
- A reach point without `end_time` makes the whole normalisation return `null`,
  because `split` throws inside the `map`.
- A non-empty `data` list without a `page_impressions_unique` series normalises to an
  empty list, not to `null`. The orchestrator still falls back to synthetic data,
  because it rejects empty lists.
- The generator draws ONE random factor per day and uses it for all five fields.
- The factor lies in [0.8, 1.2), half-open, as `Math.random() * 0.4 + 0.8` gives.
- The insight panel's grounding URLs are plain strings (`seq<string>`). types.ts:30
  declares them as `UrlItem[]` objects, but the analysis endpoint sends an array of
  strings (api/analyze.ts:48-57), the dashboard stores the endpoint's value
  unconverted, and the panel renders each entry as a string. The model follows the
  values that actually flow.

## Model

| member | source | states |
|---|---|---|
| `Text.DatePart` | services/facebookService.ts:28 | the result is a prefix of the timestamp, contains no 'T', and is followed by 'T' whenever it is shorter than the timestamp |
| `Text.DatePartBeforeT` | services/facebookService.ts:28 | a timestamp `day + "T" + time` with a T-free `day` yields exactly `day` |
| `Text.Lower` | api/facebook.ts:21-22 | `toLowerCase` on ASCII: capitals become small letters, everything else is kept, no capital remains |
| `Text.LowerIdempotent` | api/facebook.ts:21-22 | lower-casing an already lower-cased name changes nothing |
| `Text.Trim` | components/ChatInterface.tsx:39 | `trim()` yields the empty string exactly when every character is JavaScript whitespace |
| `Text.OrElse` | api/chat.ts:59 | `s \|\| fallback`: an absent or empty string gives the fallback, any other string itself |
| `FacebookService.FindSeries` | services/facebookService.ts:24-25 | `find` by name: the index of the FIRST series with that name, or none when no series has it |
| `FacebookService.FindPoint` | services/facebookService.ts:31 | `find` by `end_time`: the index of the FIRST point with that timestamp, or none when no point has it |
| `FacebookService.BreakdownWithinEngagement` | services/facebookService.ts:33-35 | likes + shares + comments never exceed the engagement; each is non-negative and they fall short by less than 3 for a non-negative count |
| `FacebookService.NormalizeSeries` | services/facebookService.ts:27-45 | defined exactly when every reach point has `end_time`; then one entry per reach point, in order, each carrying the date part, the reach value or 0, the first matching engagement value or 0, and the 85/10/5 percent floors |
| `FacebookService.FetchRealFacebookData` | services/facebookService.ts:11-52 | `null` exactly when the request failed, the response is not ok, the body is unreadable, `data` is absent or empty, or a reach point lacks `end_time`; otherwise one normalised entry per reach point |
| `FacebookService.NoReachSeriesGivesEmptyList` | services/facebookService.ts:21-27 | non-empty `data` without a reach series gives an empty list, not `null` |
| `FacebookService.UnavailableGivesNone` | services/facebookService.ts:14-21 | a failed request, a non-ok response, an unreadable body, and an absent or empty `data` all give `null` |
| `FacebookService.SingleDayExample` | services/facebookService.ts:27-45 | reach 1000 and engagement 200 at one timestamp give one entry dated by the timestamp's day with 170/20/10 |
| `MockData.BaseReach` | App.tsx:22 | the platform's base reach is positive |
| `MockData.BaseEngagement` | App.tsx:23 | the platform's base engagement is positive |
| `MockData.BaseRatesConsistent` | App.tsx:22-23 | every platform's engagement base is below its reach base, which `MockEntryPlausible` relies on |
| `MockData.MockSeries` | App.tsx:17-37 | the reference series the generator is proved against: `days + 1` entries, entry k dated today − days + k |
| `MockData.GenerateMockData` | App.tsx:13-38 | the loop builds exactly `days + 1` entries, entry k being the day `days - k` days before today with the k-th random factor, i.e. the series `MockSeries` |
| `MockData.MockDates` | App.tsx:17-29 | dates run from today − days to today, each one day after the previous, strictly increasing |
| `MockData.DayEntryPlausible` | App.tsx:25-34 | for bases 0 ≤ engagement base ≤ reach base, a factor ≥ 0 and a trend ≥ 1, all five fields are non-negative, likes + shares + comments ≤ engagement ≤ reach |
| `MockData.MockEntryPlausible` | App.tsx:22-34 | with a factor in [0.8, 1.2), every field of a generated day is a non-negative integer, the split stays within the engagement, and the engagement within the reach |
| `MockData.MockSeriesPlausible` | App.tsx:17-37 | every entry of a generated series has the properties of `MockEntryPlausible` |
| `MockData.MockOldestDayRange` | App.tsx:22-31 | on the oldest day (trend 1) reach and engagement lie between floor(0.8 × base) and floor(1.2 × base) for the platform's base rates |
| `Aggregates.TotalReach` | App.tsx:109 | the fold over the reaches: 0 for an empty series, the day's reach for a single day, non-negative when every reach is |
| `Aggregates.TotalEngagement` | App.tsx:110 | the fold over the engagements: 0 for an empty series, the day's engagement for a single day, non-negative when every engagement is |
| `Aggregates.TotalsAppend` | App.tsx:109-110 | both totals of a concatenation are the sums of the parts' totals |
| `Aggregates.TotalsAreSums` | App.tsx:109-110 | both left folds equal the plain front-to-back sums `SumReach` and `SumEngagement` of the series |
| `Aggregates.EngagementWithinReach` | App.tsx:109-110 | if no day's engagement exceeds its reach, total engagement does not exceed total reach |
| `Aggregates.RoundTo2` | App.tsx:117 | `parseFloat(x.toFixed(2))` is a whole number of hundredths within 0.005 of x, strictly above x − 0.005 for x ≥ 0 and strictly below x + 0.005 for x < 0 (ties away from zero), and non-negative for non-negative x |
| `Aggregates.RoundTo2Unique` | App.tsx:117 | that contract determines the result: any value on the hundredths grid meeting it equals `RoundTo2(x)` |
| `Aggregates.RoundTo2AtMost100` | App.tsx:117 | rounding keeps a value in [0, 100] within [0, 100] |
| `Aggregates.EngagementRate` | App.tsx:117 | 0 when total reach is not positive; otherwise on the hundredths grid within 0.005 of the exact ratio engagement / reach × 100 |
| `Aggregates.RateWithinPercent` | App.tsx:117 | with 0 ≤ engagement ≤ reach the rate lies in [0, 100] |
| `Aggregates.RateExample` | App.tsx:117 | reach 5000 with engagement 250 gives a rate of exactly 5 |
| `Aggregates.Followers` | App.tsx:111 | the platform's follower count is positive |
| `Aggregates.TopPostType` | App.tsx:118 | "Reels" exactly for Instagram, "Photo Album" otherwise |
| `Aggregates.Aggregate` | App.tsx:109-119 | totals are the sums over the series; the rate is `EngagementRate` of the totals (zero guard, hundredths grid, 0.005 bound against the exact ratio); followers and top post type depend on the platform only |
| `Aggregates.AggregateOfEmpty` | App.tsx:109-119 | an empty series aggregates to zero totals and a zero rate with the platform's followers and format |
| `Aggregates.AggregateDependsOnTotals` | App.tsx:111-118 | two series with equal totals have equal aggregates for the same platform |
| `Dashboard.DayCount` | App.tsx:81-82 | the ceiling of the absolute millisecond distance in days: n days cover the distance and n − 1 do not |
| `Dashboard.DayCountOfWholeDays` | App.tsx:81-82 | a range of exactly k days counts k days in either order |
| `Dashboard.LiveSeries` | App.tsx:86-98 | live data is kept exactly when the platform is facebook or all and the normaliser returned a non-empty list, and then it is that list unchanged |
| `Dashboard.FallbackCases` | App.tsx:86-104 | Instagram, an unusable response, an empty `data`, and a `data` without a reach series all lead to synthetic data |
| `Dashboard.MockRateWithinPercent` | App.tsx:101-117 | the rate computed over synthetic data always lies in [0, 100] |
| `Dashboard.FailureText` | App.tsx:155 | an empty error message is replaced by "Failed to analyze."; any other message is kept |
| `Dashboard.App.constructor` | App.tsx:42-69 | the initial state: platform all, no data, simulated, zero aggregates with "Video", an idle empty analysis |
| `Dashboard.App.LoadData` | App.tsx:75-124 | a live request is made only for facebook and all; the chart data is the live list when `LiveSeries` keeps it, else `DayCount + 1` synthetic days; the live flag says which; the aggregates are recomputed from the chosen data; the analysis result, URLs and error are cleared; loading ends false |
| `Dashboard.App.BeginAnalyze` | App.tsx:136-144 | loading is set and the error cleared, keeping the old result; the request carries the current aggregates, platform and range |
| `Dashboard.App.FinishAnalyze` | App.tsx:145-157 | a result replaces the whole analysis state; a failure keeps the old result and URLs, stops loading and shows the message or "Failed to analyze." |
| `Dashboard.App.HandleAnalyze` | App.tsx:135-158 | the composition of the two: the final analysis state in terms of the state before the call |
| `ChatInterface.ReplyMessage` | components/ChatInterface.tsx:59-71 | the appended message is the model's, stamped now, with the reply text on success and the apology on failure |
| `ChatInterface.ChatPanel.constructor` | components/ChatInterface.tsx:14-16 | no messages, empty input, not loading |
| `ChatInterface.ChatPanel.InstallWelcome` | components/ChatInterface.tsx:21-31 | an empty conversation receives exactly one model welcome message; a non-empty one is left alone |
| `ChatInterface.ChatPanel.BeginSend` | components/ChatInterface.tsx:38-57 | blocked (blank input or loading): nothing changes and nothing is sent; otherwise exactly one user message with the untrimmed input is appended, input is cleared, loading is set, and the service receives the history from before that message |
| `ChatInterface.ChatPanel.CompleteSend` | components/ChatInterface.tsx:59-74 | exactly one model message (reply or apology) is appended and loading ends |
| `ChatInterface.ChatPanel.HandleSend` | components/ChatInterface.tsx:38-75 | blocked: no change; otherwise the old list grows by the user message and one model message, nothing earlier is removed or reordered, input is empty and loading is off |
| `ApiChat.HistoryContents` | api/chat.ts:39-42 | one model turn per history message, in order, keeping its role and text |
| `ApiChat.BuildContents` | api/chat.ts:38-47 | length is history + 1; the history's turns keep role and text in order; the last turn is the user's with the new message |
| `ApiChat.ContentsMirrorConversation` | api/chat.ts:38-47 | the contents equal the turns of the history extended by the user's message, so the new message is seen once |
| `ApiChat.InstructionFor` | api/chat.ts:20-31 | the system instruction carries the platform as sent, the date range, and the reach, engagement and rate of the context's metrics |
| `ApiChat.ChatHandler` | api/chat.ts:5-65 | 405 for non-POST and 500 for a missing key, both without a model call; a model call exactly when the body has history and context, with the built contents and `InstructionFor` of the context; 200 exactly when that call answers, with its text or "I am unable to answer right now."; every other outcome is 500 "Failed to process chat" |
| `ApiAnalyze.PlatformLabel` | api/analyze.ts:20 | `all` reads "Facebook & Instagram", any other platform its own name |
| `ApiAnalyze.BuildPrompt` | api/analyze.ts:19-27 | the prompt embeds the platform label, the range and each of the four aggregates it was sent |
| `ApiAnalyze.GroundingChunks` | api/analyze.ts:49-50 | no candidates, or a first candidate without grounding metadata, gives no chunks; otherwise the first candidate's `groundingChunks`, or none when absent |
| `ApiAnalyze.WebUris` | api/analyze.ts:48-53 | every collected URL is non-empty and comes from some chunk; every chunk with a URI contributes it; no more URLs than chunks; a single chunk gives its URI or nothing |
| `ApiAnalyze.WebUrisAppend` | api/analyze.ts:48-53 | collection keeps chunk order: the URLs of a concatenation are the first part's followed by the second's |
| `ApiAnalyze.CollectUrls` | api/analyze.ts:48-53 | the `forEach` loop collects exactly `WebUris` of the chunks |
| `ApiAnalyze.Distinct` | api/analyze.ts:57 | no duplicates, and exactly the same elements as the input |
| `ApiAnalyze.FirstIndex` | api/analyze.ts:57 | the position of an element's first occurrence |
| `ApiAnalyze.DistinctKeepsFirstOccurrenceOrder` | api/analyze.ts:57 | the de-duplicated list is ordered by first occurrence in the input |
| `ApiAnalyze.DistinctInOrder` | api/analyze.ts:57 | the loop with a seen-set yields exactly `Distinct` of its input |
| `ApiAnalyze.AnalyzeHandler` | api/analyze.ts:5-63 | 405 for non-POST and 500 for a missing key, both without a prompt; a prompt exactly when metrics are present; 200 exactly when the model answers, with its text or "Unable to generate analysis." and URLs that are duplicate-free and have the same elements as the collected list; otherwise 500 "Failed to process analysis" |
| `ApiFacebook.ResolveToken` | api/facebook.ts:5 | the token is never empty, and is the environment's when that is set |
| `ApiFacebook.FirstMatch` | api/facebook.ts:20-22 | the index of the first page whose lower-cased name contains "walailak" or "channel", or none when no name does |
| `ApiFacebook.SelectPage` | api/facebook.ts:20-23 | none exactly for an empty list; a matching page chosen has no matching page before it; a non-matching choice is the first page and no page matches |
| `ApiFacebook.SelectPrefersChannel` | api/facebook.ts:20-23 | if any page matches, the chosen page matches and comes no later than it |
| `ApiFacebook.FacebookHandler` | api/facebook.ts:5-48 | status is 200, 404 or 500; 500 always carries "Failed to fetch Facebook data", so the missing-token branch is unreachable; 404 exactly for a readable empty page list; the insights query uses the chosen page's id and token, both metrics, period day and the requested range; 200 exactly when that query succeeds, with its body verbatim |

## Left out

- Rendering: all JSX, the charts and their tick formatters, the stat cards, the insight panel and the entry point. They are presentation only.
- The `sendChatMessage` / `analyzeSocialInsights` wrappers: their settled outcomes (`ChatReply`, `AnalyzeOutcome`) are parameters.
- Transport: `fetch`, the Graph API and the generative-AI SDK. Each outcome is a parameter, and JSON bodies are either readable values or absent.
- Logging (`console.warn`, `console.error`) is not modelled.
- Randomness and clocks: `Math.random` is a sequence of factors in [0.8, 1.2), and `Date.now()` is a timestamp parameter.
- Dates: `new Date()` is an injected day number, and date parsing is replaced by the given millisecond times. An unparseable date (NaN day count) is not modelled.
- `toISOString` is not modelled: generated dates are day numbers (`DayNumber`), not ISO strings.
- Floating point: reals and integers replace IEEE-754 doubles. `Math.floor(e * 0.85)` is computed exactly as `e * 85 / 100`, and the generator's products are exact in the reals. Doubles could differ by one at rounding boundaries.
- The rendering of numbers into the prompt and instruction texts, and the texts' fixed wording: prompts are records of the embedded values.
- JavaScript truthiness beyond absent/empty: a Graph API value is an optional integer. NaN, strings and booleans in the payload are not modelled.
- `toLowerCase` is modelled for ASCII letters only, and `trim` for the JavaScript whitespace and line-terminator characters.
- Missing body fields: only `metrics`, `history` and `context` may be absent. A missing `message`, platform or date string, or a page without a `name`, is not modelled.
- React's effect scheduling and the stale-response race in `loadData`. The model runs each load to completion; there is no cancellation in the source.
- Chat panel interleavings: input typed while a reply is pending, and concurrent updates to `messages`, are not modelled.
- The refresh button's counter only re-triggers `loadData`, and it is not modelled.
- The embedded fallback access token is represented by a non-empty placeholder constant, not its value.
- Dashboard.App.LoadData: it requires the random factors for `DayCount + 1` days even when live data is used. The source draws none then.
- Aggregates.EngagementRate: rounds the exact ratio. The program rounds the double `(engagement / reach) * 100`, and at an exact half-hundredth ratio its representation error decides the direction. For example, 23 / 160 gives 14.374999999999998 as a double, so the program shows 14.37 where the model gives 14.38.
