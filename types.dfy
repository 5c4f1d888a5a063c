/**
 * The dashboard's shared record types (types.ts).
 *
 * A `DailyMetric` is one day of one series. Its `date` field is a string in the
 * source; the model keeps what each producer puts there: the synthetic generator
 * a day number relative to an injected "today" (its ISO rendering is not modelled),
 * the live normaliser the literal text cut from the Graph API timestamp.
 */
module Types {
  import opened Wrappers

  datatype Platform = All | Facebook | Instagram

  /** The value the UI stores for a platform (the `Platform` string union). */
  function PlatformName(p: Platform): string {
    match p
    case All => "all"
    case Facebook => "facebook"
    case Instagram => "instagram"
  }

  datatype DateLabel = DayNumber(day: int) | IsoText(text: string)

  datatype DailyMetric = DailyMetric(
    date: DateLabel,
    reach: int,
    engagement: int,
    likes: int,
    shares: int,
    comments: int)

  /** Summary statistics shown on the stat cards; `engagementRate` is a percentage. */
  datatype AggregateMetrics = AggregateMetrics(
    totalReach: int,
    totalEngagement: int,
    totalFollowers: int,
    engagementRate: real,
    topPostType: string)

  /** The insight panel's state; the grounding URLs travel as plain strings. */
  datatype AnalysisState = AnalysisState(
    isLoading: bool,
    result: Option<string>,
    groundingUrls: seq<string>,
    error: Option<string>)

  datatype Role = User | Model

  /** A chat turn; `timestamp` is the millisecond clock reading when it was made. */
  datatype ChatMessage = ChatMessage(role: Role, text: string, timestamp: int)

  /** What the chat panel sends along with every question (its props). */
  datatype ChatContext = ChatContext(
    metrics: AggregateMetrics,
    platform: string,
    startDate: string,
    endDate: string)
}
