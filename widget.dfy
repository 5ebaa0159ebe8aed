/** The chat widget in the browser: whether the window is open, whether a
    reply is awaited (the typing indicator), the session id the server
    handed out, the input field, the quick-reply buttons and the log of
    displayed messages.  Each request's outcome (a reply, an error status or
    a failed fetch) and each timestamp are parameters. */
module ChatWidget {
  import opened Wrappers
  import opened TextUtil
  import opened ChatModel

  /** One entry of messageHistory. */
  datatype HistoryEntry = HistoryEntry(text: string, sender: Sender, timestamp: Time)

  /** How /api/chat/start answered. */
  datatype StartOutcome = Started(sessionId: string, quickReplies: Option<seq<string>>) | StartFailed

  /** How /api/chat/message answered: a reply (status 2xx), an error status,
      or a fetch or JSON failure. */
  datatype SendOutcome = Answered(response: string, quickReplies: Option<seq<string>>) | ErrorStatus | Unreachable

  const ErrorReply: string :=
    "Sorry, I encountered an error processing " +
    "your message. Please try again."

  const OfflineReply: string :=
    "Sorry, I am currently unable to respond. " +
    ("Please check your connection and try " +
    "again.")

  /** The bot line shown when a request completes. */
  function CompletionText(outcome: SendOutcome): (text: string)
    ensures outcome.Answered? ==> text == outcome.response
    ensures outcome == ErrorStatus ==> text == ErrorReply
    ensures outcome == Unreachable ==> text == OfflineReply
  {
    match outcome
    case Answered(response, _) => response
    case ErrorStatus => ErrorReply
    case Unreachable => OfflineReply
  }

  /** A JavaScript string argument is truthy when given and not empty. */
  predicate Truthy(text: Option<string>) {
    text.Some? && text.value != ""
  }

  /** `messageText || input.value.trim()`: the quick-reply text when one was
      given, the trimmed input otherwise. */
  function OutgoingText(messageText: Option<string>, input: string): string {
    if Truthy(messageText) then messageText.value else Trim(input)
  }

  /** Nothing is sent exactly when no quick-reply text was given and the
      input holds only white space. */
  lemma OutgoingEmptyIff(messageText: Option<string>, input: string)
    ensures OutgoingText(messageText, input) == "" <==> !Truthy(messageText) && AllSpace(input)
  {
    TrimEmptyIff(input);
  }

  /** A quick-reply text is sent as it is, whatever the input holds. */
  lemma QuickReplyTakesPrecedence(reply: string, input: string)
    requires reply != ""
    ensures OutgoingText(Some(reply), input) == reply
  {
  }

  /** formatBotMessage: every newline becomes a line break tag (the HTML
      escaping is done by the browser and is not part of this model). */
  function FormatBotMessage(text: string): (html: string)
    ensures '\n' !in html
    ensures |html| >= |text|
  {
    if |text| == 0 then ""
    else (if text[0] == '\n' then "<br>" else [text[0]]) + FormatBotMessage(text[1..])
  }

  /** Formatting works character by character, so it distributes over
      concatenation. */
  lemma {:induction false} FormatConcat(a: string, b: string)
    ensures FormatBotMessage(a + b) == FormatBotMessage(a) + FormatBotMessage(b)
  {
    if |a| == 0 {
      assert a + b == b;
    } else {
      assert (a + b)[0] == a[0];
      assert (a + b)[1..] == a[1..] + b;
      FormatConcat(a[1..], b);
    }
  }

  /** Text without newlines is shown as it is. */
  lemma {:induction false} FormatWithoutNewline(text: string)
    requires '\n' !in text
    ensures FormatBotMessage(text) == text
  {
    if |text| > 0 {
      FormatWithoutNewline(text[1..]);
    }
  }

  /** Each newline becomes exactly one tag. */
  lemma FormatNewline(a: string, b: string)
    ensures FormatBotMessage(a + "\n" + b) == FormatBotMessage(a) + "<br>" + FormatBotMessage(b)
  {
    FormatConcat(a + "\n", b);
    FormatConcat(a, "\n");
  }

  class TrakShipChatbot {
    var sessionId: Option<string>
    var isOpen: bool
    var messageHistory: seq<HistoryEntry>
    var isTyping: bool
    /** The value of the chat input field. */
    var input: string
    /** The quick-reply buttons on show. */
    var quickReplies: seq<string>

    constructor ()
      ensures sessionId == None && !isOpen && messageHistory == [] && !isTyping
      ensures input == "" && quickReplies == []
    {
      sessionId := None;
      isOpen := false;
      messageHistory := [];
      isTyping := false;
      input := "";
      quickReplies := [];
    }

    /** toggleChat flips the window and nothing else. */
    method ToggleChat()
      modifies this
      ensures isOpen == !old(isOpen)
      ensures sessionId == old(sessionId) && messageHistory == old(messageHistory)
      ensures isTyping == old(isTyping) && input == old(input) && quickReplies == old(quickReplies)
    {
      isOpen := !isOpen;
    }

    /** openChat leaves the window open; on an open window it does nothing,
        so opening twice is opening once. */
    method OpenChat()
      modifies this
      ensures isOpen
      ensures sessionId == old(sessionId) && messageHistory == old(messageHistory)
      ensures isTyping == old(isTyping) && input == old(input) && quickReplies == old(quickReplies)
    {
      if !isOpen {
        ToggleChat();
      }
    }

    /** closeChat leaves the window closed; on a closed window it does
        nothing. */
    method CloseChat()
      modifies this
      ensures !isOpen
      ensures sessionId == old(sessionId) && messageHistory == old(messageHistory)
      ensures isTyping == old(isTyping) && input == old(input) && quickReplies == old(quickReplies)
    {
      if isOpen {
        ToggleChat();
      }
    }

    /** displayQuickReplies: the buttons are replaced by the given list, or
        removed when there is none. */
    method DisplayQuickReplies(replies: Option<seq<string>>)
      modifies this
      ensures quickReplies == (if replies.Some? then replies.value else [])
      ensures sessionId == old(sessionId) && isOpen == old(isOpen) && messageHistory == old(messageHistory)
      ensures isTyping == old(isTyping) && input == old(input)
    {
      quickReplies := if replies.Some? then replies.value else [];
    }

    /** startChatSession: a successful start stores the session id and shows
        the quick replies; a failed one changes nothing. */
    method StartChatSession(outcome: StartOutcome)
      modifies this
      ensures outcome.Started? ==>
        sessionId == Some(outcome.sessionId)
        && quickReplies == (if outcome.quickReplies.Some? then outcome.quickReplies.value else [])
      ensures outcome == StartFailed ==> sessionId == old(sessionId) && quickReplies == old(quickReplies)
      ensures isOpen == old(isOpen) && messageHistory == old(messageHistory)
      ensures isTyping == old(isTyping) && input == old(input)
    {
      if outcome.Started? {
        sessionId := Some(outcome.sessionId);
        DisplayQuickReplies(outcome.quickReplies);
      }
    }

    /** displayMessage: exactly one entry is appended to the history. */
    method DisplayMessage(text: string, sender: Sender, now: Time)
      modifies this
      ensures messageHistory == old(messageHistory) + [HistoryEntry(text, sender, now)]
      ensures sessionId == old(sessionId) && isOpen == old(isOpen) && isTyping == old(isTyping)
      ensures input == old(input) && quickReplies == old(quickReplies)
    {
      messageHistory := messageHistory + [HistoryEntry(text, sender, now)];
    }

    method ShowTypingIndicator()
      modifies this
      ensures isTyping
      ensures sessionId == old(sessionId) && isOpen == old(isOpen) && messageHistory == old(messageHistory)
      ensures input == old(input) && quickReplies == old(quickReplies)
    {
      isTyping := true;
    }

    method HideTypingIndicator()
      modifies this
      ensures !isTyping
      ensures sessionId == old(sessionId) && isOpen == old(isOpen) && messageHistory == old(messageHistory)
      ensures input == old(input) && quickReplies == old(quickReplies)
    {
      isTyping := false;
    }

    /** The part of sendMessage before the request goes out.  Nothing
        happens when there is nothing to send or a reply is still awaited.
        Otherwise the input is cleared unless a quick-reply text was given,
        the user's line is shown and the typing indicator goes on; the text
        to send is returned. */
    method BeginSend(messageText: Option<string>, now: Time) returns (sent: Option<string>)
      modifies this
      ensures var message := OutgoingText(messageText, old(input));
        if message == "" || old(isTyping) then
          sent == None && messageHistory == old(messageHistory) && isTyping == old(isTyping)
          && input == old(input)
        else
          sent == Some(message) && isTyping
          && messageHistory == old(messageHistory) + [HistoryEntry(message, User, now)]
          && input == (if Truthy(messageText) then old(input) else "")
      ensures sessionId == old(sessionId) && isOpen == old(isOpen) && quickReplies == old(quickReplies)
    {
      var message := OutgoingText(messageText, input);
      if message == "" || isTyping {
        return None;
      }
      if !Truthy(messageText) {
        input := "";
      }
      DisplayMessage(message, User, now);
      ShowTypingIndicator();
      return Some(message);
    }

    /** The part of sendMessage after the request: on every path the typing
        indicator goes off and one bot line is shown; the quick replies are
        replaced only when the server answered. */
    method FinishSend(outcome: SendOutcome, now: Time)
      modifies this
      ensures !isTyping
      ensures messageHistory == old(messageHistory) + [HistoryEntry(CompletionText(outcome), Bot, now)]
      ensures outcome.Answered? ==>
        quickReplies == (if outcome.quickReplies.Some? then outcome.quickReplies.value else [])
      ensures !outcome.Answered? ==> quickReplies == old(quickReplies)
      ensures sessionId == old(sessionId) && isOpen == old(isOpen) && input == old(input)
    {
      match outcome
      case Answered(response, replies) =>
        HideTypingIndicator();
        DisplayMessage(response, Bot, now);
        DisplayQuickReplies(replies);
      case ErrorStatus =>
        HideTypingIndicator();
        DisplayMessage(ErrorReply, Bot, now);
      case Unreachable =>
        HideTypingIndicator();
        DisplayMessage(OfflineReply, Bot, now);
    }

    /** sendMessage run to completion: an accepted send leaves two new lines,
        the user's and then the bot's, and the typing indicator off. */
    method SendMessage(messageText: Option<string>, outcome: SendOutcome, sentAt: Time, answeredAt: Time)
      returns (sent: Option<string>)
      modifies this
      ensures var message := OutgoingText(messageText, old(input));
        if message == "" || old(isTyping) then
          sent == None && messageHistory == old(messageHistory) && isTyping == old(isTyping)
          && input == old(input) && quickReplies == old(quickReplies)
        else
          sent == Some(message) && !isTyping
          && messageHistory == old(messageHistory)
               + [HistoryEntry(message, User, sentAt), HistoryEntry(CompletionText(outcome), Bot, answeredAt)]
          && input == (if Truthy(messageText) then old(input) else "")
          && quickReplies ==
               if outcome.Answered? then
                 (if outcome.quickReplies.Some? then outcome.quickReplies.value else [])
               else old(quickReplies)
      ensures sessionId == old(sessionId) && isOpen == old(isOpen)
    {
      sent := BeginSend(messageText, sentAt);
      if sent.Some? {
        ghost var afterUser := messageHistory;
        FinishSend(outcome, answeredAt);
        assert messageHistory == afterUser + [HistoryEntry(CompletionText(outcome), Bot, answeredAt)];
      }
    }

    /** A quick-reply button: its text is sent (an empty text falls back to
        the trimmed input, as in sendMessage) and the buttons are removed at
        once, whether or not the send went ahead. */
    method ClickQuickReply(reply: string, now: Time) returns (sent: Option<string>)
      modifies this
      ensures quickReplies == []
      ensures var text := OutgoingText(Some(reply), old(input));
        if text == "" || old(isTyping) then
          sent == None && messageHistory == old(messageHistory) && isTyping == old(isTyping)
          && input == old(input)
        else
          sent == Some(text) && isTyping
          && messageHistory == old(messageHistory) + [HistoryEntry(text, User, now)]
          && input == (if reply != "" then old(input) else "")
      ensures sessionId == old(sessionId) && isOpen == old(isOpen)
    {
      sent := BeginSend(Some(reply), now);
      quickReplies := [];
    }

    /** sendPredefinedMessage: the text is sent, without waiting for the
        answer, and the window opened.  An empty text falls back to the
        trimmed input, as in sendMessage. */
    method SendPredefinedMessage(message: string, now: Time) returns (sent: Option<string>)
      modifies this
      ensures isOpen
      ensures var text := OutgoingText(Some(message), old(input));
        if text == "" || old(isTyping) then
          sent == None && messageHistory == old(messageHistory) && isTyping == old(isTyping)
          && input == old(input)
        else
          sent == Some(text) && isTyping
          && messageHistory == old(messageHistory) + [HistoryEntry(text, User, now)]
          && input == (if message != "" then old(input) else "")
      ensures sessionId == old(sessionId) && quickReplies == old(quickReplies)
    {
      sent := BeginSend(Some(message), now);
      OpenChat();
    }
  }
}
