/**
 * The chat widget (components/ChatbotWidget.tsx): an append-only message log,
 * the input box and a loading flag. The chatbot service call is an outcome
 * supplied to the second half of the send handler.
 */
module ChatbotWidget {
  import opened Types
  import opened Text

  const Greeting := ChatMessage(Bot, "Hello! How can I help you today? I can answer general questions about health and wellness.")
  const FallbackText := "Sorry, I'm having trouble connecting. Please try again later."

  /** The bot entry appended once the service settles: its reply, or the fixed apology. */
  function BotReply(outcome: Outcome<string>): (m: ChatMessage)
    ensures m.role == Bot
    ensures m.text == (if outcome.Success? then outcome.value else FallbackText)
  {
    ChatMessage(Bot, match outcome case Success(text) => text case Failure => FallbackText)
  }

  class Chat {
    var isOpen: bool
    var messages: seq<ChatMessage>
    var userInput: string
    var isLoading: bool

    constructor ()
      ensures messages == [Greeting]
      ensures !isOpen && userInput == "" && !isLoading
    {
      isOpen := false;
      messages := [Greeting];
      userInput := "";
      isLoading := false;
    }

    method SetOpen(open: bool)
      modifies this`isOpen
      ensures isOpen == open
    {
      isOpen := open;
    }

    /** The input box's onChange. */
    method SetInput(text: string)
      modifies this`userInput
      ensures userInput == text
    {
      userInput := text;
    }

    /**
     * handleSendMessage up to its await. Empty or whitespace-only input changes
     * nothing: `!userInput.trim()` holds exactly when the input is all
     * whitespace, by the contract of Text.Trim. Otherwise the user's untrimmed text is appended, the input is
     * cleared, loading starts and that text is the request to the service.
     */
    method BeginSend() returns (request: Option<string>)
      modifies this
      ensures AllWhitespace(old(userInput)) ==> request == None && unchanged(this)
      ensures !AllWhitespace(old(userInput)) ==>
        && request == Some(old(userInput))
        && messages == old(messages) + [ChatMessage(User, old(userInput))]
        && userInput == "" && isLoading
      ensures old(messages) <= messages && isOpen == old(isOpen)
    {
      if AllWhitespace(userInput) {
        return None;
      }
      request := Some(userInput);
      messages := messages + [ChatMessage(User, userInput)];
      userInput := "";
      isLoading := true;
    }

    /**
     * handleSendMessage after its await: one bot entry is appended (the
     * reply or, on failure, the fixed apology, never an error state) and loading ends.
     */
    method FinishSend(outcome: Outcome<string>)
      modifies this
      ensures messages == old(messages) + [BotReply(outcome)]
      ensures !isLoading && userInput == old(userInput) && isOpen == old(isOpen)
    {
      messages := messages + [BotReply(outcome)];
      isLoading := false;
    }

    /**
     * The whole send, run to completion: an accepted send extends the log by
     * exactly the user's text and one bot entry, and leaves earlier entries as they were.
     */
    method HandleSendMessage(outcome: Outcome<string>) returns (request: Option<string>)
      modifies this
      ensures AllWhitespace(old(userInput)) ==> request == None && unchanged(this)
      ensures !AllWhitespace(old(userInput)) ==>
        && request == Some(old(userInput))
        && messages == old(messages) + [ChatMessage(User, old(userInput)), BotReply(outcome)]
        && userInput == "" && !isLoading
      ensures old(messages) <= messages && isOpen == old(isOpen)
    {
      ghost var log, input := messages, userInput;
      request := BeginSend();
      if request.Some? {
        FinishSend(outcome);
        assert messages == log + [ChatMessage(User, input)] + [BotReply(outcome)];
      }
    }

    /** The send button is disabled while loading or when the input is blank. */
    predicate SendDisabled()
      reads this
      ensures SendDisabled() <==> isLoading || AllWhitespace(userInput)
    {
      isLoading || Trim(userInput) == ""
    }
  }
}
