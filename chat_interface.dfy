/**
 * The chat panel's conversation state (components/ChatInterface.tsx): the list
 * of messages, the input box and the loading flag. Clock readings (`Date.now()`)
 * and the chat service's outcome are parameters.
 */
module ChatInterface {
  import opened Wrappers
  import opened Types
  import Text

  const WelcomeText := "Hello! I am your Walailak Channel data assistant. Ask me anything about your current performance or for strategic advice."
  const ApologyText := "I'm sorry, I'm having trouble connecting to the server right now."

  /** The arguments `handleSend` passes to `sendChatMessage`. */
  datatype ChatRequest = ChatRequest(message: string, history: seq<ChatMessage>, context: ChatContext)

  /** How `sendChatMessage` settled: with the reply text, or by throwing. */
  datatype ChatReply = Replied(text: string) | Failed

  /** The one model message appended for an outcome. */
  function ReplyMessage(reply: ChatReply, now: int): (m: ChatMessage)
    ensures m.role == Model && m.timestamp == now
    ensures reply.Replied? ==> m.text == reply.text
    ensures reply.Failed? ==> m.text == ApologyText
  {
    match reply
    case Replied(text) => ChatMessage(Model, text, now)
    case Failed => ChatMessage(Model, ApologyText, now)
  }

  /** `!input.trim() || isLoading`: the guard under which sending does nothing. */
  predicate SendBlocked(input: string, isLoading: bool) {
    Text.Trim(input) == [] || isLoading
  }

  class ChatPanel {
    var messages: seq<ChatMessage>
    var input: string
    var isLoading: bool

    /** The state hooks' initial values. */
    constructor ()
      ensures messages == [] && input == [] && !isLoading
    {
      messages := [];
      input := [];
      isLoading := false;
    }

    /** The mount effect: an empty conversation receives exactly one welcome message from the model. */
    method InstallWelcome(now: int)
      modifies this`messages
      ensures old(messages) == [] ==> messages == [ChatMessage(Model, WelcomeText, now)]
      ensures old(messages) != [] ==> messages == old(messages)
    {
      if |messages| == 0 {
        messages := [ChatMessage(Model, WelcomeText, now)];
      }
    }

    /**
     * The synchronous part of `handleSend`. When blocked it changes nothing and
     * sends nothing. Otherwise it appends the user's message with the untrimmed
     * input, clears the input, sets loading, and sends the service the history as
     * it was BEFORE the new message.
     */
    method BeginSend(context: ChatContext, now: int) returns (request: Option<ChatRequest>)
      modifies this
      ensures SendBlocked(old(input), old(isLoading)) ==>
        request == None && messages == old(messages) && input == old(input) && isLoading == old(isLoading)
      ensures !SendBlocked(old(input), old(isLoading)) ==>
        && request == Some(ChatRequest(old(input), old(messages), context))
        && messages == old(messages) + [ChatMessage(User, old(input), now)]
        && input == [] && isLoading
    {
      if Text.Trim(input) == [] || isLoading {
        return None;
      }
      var userMsg := ChatMessage(User, input, now);
      var newHistory := messages + [userMsg];
      request := Some(ChatRequest(userMsg.text, messages, context));
      messages := newHistory;
      input := [];
      isLoading := true;
    }

    /** The part of `handleSend` after the service settles: exactly one model message, loading off. */
    method CompleteSend(reply: ChatReply, now: int)
      modifies this`messages, this`isLoading
      ensures messages == old(messages) + [ReplyMessage(reply, now)]
      ensures !isLoading
    {
      messages := messages + [ReplyMessage(reply, now)];
      isLoading := false;
    }

    /**
     * `handleSend` from start to end, with the service's outcome as a parameter:
     * blocked, nothing changes; otherwise the list grows by exactly the user's
     * message and one model message, and nothing earlier moves.
     */
    method HandleSend(context: ChatContext, reply: ChatReply, sentAt: int, repliedAt: int) returns (request: Option<ChatRequest>)
      modifies this
      ensures SendBlocked(old(input), old(isLoading)) ==>
        request == None && messages == old(messages) && input == old(input) && isLoading == old(isLoading)
      ensures !SendBlocked(old(input), old(isLoading)) ==>
        && request == Some(ChatRequest(old(input), old(messages), context))
        && messages == old(messages) + [ChatMessage(User, old(input), sentAt), ReplyMessage(reply, repliedAt)]
        && input == [] && !isLoading
      ensures old(messages) <= messages
    {
      request := BeginSend(context, sentAt);
      if request.Some? {
        CompleteSend(reply, repliedAt);
      }
    }
  }
}
