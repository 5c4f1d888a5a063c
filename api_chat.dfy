/**
 * The chat endpoint (api/chat.ts): method and key guards, then one call to the
 * generative model with the conversation so far plus the new message. The SDK
 * call is an input: the handler returns the request it would make and the HTTP
 * response it sends.
 */
module ApiChat {
  import opened Wrappers
  import opened Types
  import Text

  const NoAnswerText := "I am unable to answer right now."

  datatype Part = Part(text: string)

  /** One turn of the model's `contents`. */
  datatype Content = Content(role: Role, parts: seq<Part>)

  /** The POST body; a missing `history` or `context` makes the handler throw. */
  datatype ChatBody = ChatBody(message: string, history: Option<seq<ChatMessage>>, context: Option<ChatContext>)

  /** The values the system instruction embeds (its fixed wording is not modelled). */
  datatype Instruction = Instruction(
    platform: string,
    startDate: string,
    endDate: string,
    totalReach: int,
    totalEngagement: int,
    engagementRate: real)

  datatype ModelRequest = ModelRequest(contents: seq<Content>, instruction: Instruction)

  /** How `generateContent` settled: it threw, or it answered with a possibly absent text. */
  datatype ModelOutcome = ModelThrew | ModelAnswered(text: Option<string>)

  datatype ResponseBody = ReplyText(text: string) | ErrorMessage(error: string)

  datatype Response = Response(status: int, body: ResponseBody)

  /** The model request made, if any, and the HTTP response sent. */
  datatype Exchange = Exchange(modelRequest: Option<ModelRequest>, response: Response)

  /** One history entry as a model turn: its role and its text, nothing else. */
  function ToContent(m: ChatMessage): Content {
    Content(m.role, [Part(m.text)])
  }

  /** `history.map(...)`: one turn per message, in order. */
  function HistoryContents(history: seq<ChatMessage>): (c: seq<Content>)
    ensures |c| == |history|
    ensures forall k :: 0 <= k < |history| ==> c[k].role == history[k].role && c[k].parts == [Part(history[k].text)]
  {
    if history == [] then [] else [ToContent(history[0])] + HistoryContents(history[1..])
  }

  /**
   * `[...history.map(...), {role: 'user', parts: [{text: message}]}]`: the history
   * in order, each turn keeping its role and text, then the new message as the
   * user's turn.
   */
  function BuildContents(history: seq<ChatMessage>, message: string): (c: seq<Content>)
    ensures |c| == |history| + 1
    ensures forall k :: 0 <= k < |history| ==> c[k].role == history[k].role && c[k].parts == [Part(history[k].text)]
    ensures c[|history|] == Content(User, [Part(message)])
  {
    HistoryContents(history) + [Content(User, [Part(message)])]
  }

  /**
   * Because the panel sends the history from before the new message plus the
   * message itself, the model sees the panel's new conversation exactly once:
   * the contents equal the turns of `history + [the user's message]`.
   */
  lemma {:induction false} ContentsMirrorConversation(history: seq<ChatMessage>, message: string, now: int)
    ensures BuildContents(history, message) == HistoryContents(history + [ChatMessage(User, message, now)])
  {
    var lhs := BuildContents(history, message);
    var rhs := HistoryContents(history + [ChatMessage(User, message, now)]);
    assert |lhs| == |rhs|;
    forall k | 0 <= k < |lhs| ensures lhs[k] == rhs[k] {
      if k < |history| {
        assert (history + [ChatMessage(User, message, now)])[k] == history[k];
      } else {
        assert (history + [ChatMessage(User, message, now)])[k] == ChatMessage(User, message, now);
      }
    }
  }

  /**
   * The values the system instruction embeds: the platform as sent (no label is
   * substituted, unlike the analysis prompt), the date range, and three of the
   * aggregates. The follower count and top format are not passed on.
   */
  function InstructionFor(context: ChatContext): (i: Instruction)
    ensures i.platform == context.platform
    ensures i.startDate == context.startDate && i.endDate == context.endDate
    ensures i.totalReach == context.metrics.totalReach && i.totalEngagement == context.metrics.totalEngagement
    ensures i.engagementRate == context.metrics.engagementRate
  {
    Instruction(context.platform, context.startDate, context.endDate,
      context.metrics.totalReach, context.metrics.totalEngagement, context.metrics.engagementRate)
  }

  /**
   * The handler: 405 for anything but POST, 500 when the key is missing (before
   * any model call), 500 "Failed to process chat" when the body lacks its parts or
   * the model call throws, otherwise 200 with the model's text or a fixed
   * fallback when that text is empty.
   */
  function ChatHandler(verb: string, apiKey: Option<string>, body: ChatBody, outcome: ModelOutcome): (x: Exchange)
    ensures verb != "POST" ==> x == Exchange(None, Response(405, ErrorMessage("Method Not Allowed")))
    ensures verb == "POST" && Text.Missing(apiKey) ==>
      x == Exchange(None, Response(500, ErrorMessage("Server configuration error: Missing API Key")))
    ensures x.modelRequest.Some? <==>
      verb == "POST" && !Text.Missing(apiKey) && body.history.Some? && body.context.Some?
    ensures x.modelRequest.Some? ==>
      x.modelRequest.value == ModelRequest(BuildContents(body.history.value, body.message), InstructionFor(body.context.value))
    ensures x.response.status == 200 <==> x.modelRequest.Some? && outcome.ModelAnswered?
    ensures x.response.status == 200 ==> x.response.body == ReplyText(Text.OrElse(outcome.text, NoAnswerText))
    ensures x.response.status == 200 ==> x.response.body.text != []
    ensures verb == "POST" && !Text.Missing(apiKey) && x.response.status != 200 ==>
      x.response == Response(500, ErrorMessage("Failed to process chat"))
  {
    if verb != "POST" then
      Exchange(None, Response(405, ErrorMessage("Method Not Allowed")))
    else if Text.Missing(apiKey) then
      Exchange(None, Response(500, ErrorMessage("Server configuration error: Missing API Key")))
    else if body.history.None? || body.context.None? then
      Exchange(None, Response(500, ErrorMessage("Failed to process chat")))
    else
      var request := ModelRequest(BuildContents(body.history.value, body.message), InstructionFor(body.context.value));
      match outcome
      case ModelThrew => Exchange(Some(request), Response(500, ErrorMessage("Failed to process chat")))
      case ModelAnswered(text) => Exchange(Some(request), Response(200, ReplyText(Text.OrElse(text, NoAnswerText))))
  }
}
