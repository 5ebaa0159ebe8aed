/** The stateful half of the chat response engine: the session store and the
    FAQ catalogue, with get-or-create, append, history, the FAQ search loop,
    the seed-once initialiser and generateResponse, which saves the user's
    message, picks a reply by intent and saves the reply. */
module ChatbotService {
  import opened Wrappers
  import opened TextUtil
  import opened ChatModel
  import opened Intents
  import opened FaqMatch
  import opened FaqCatalogue

  // ---------------------------------------------------------------------------
  // Choosing the reply

  datatype Intent = Greeting | Goodbye | TrackingRequest | HelpRequest | FaqLookup

  /** The intent tests are tried in a fixed order and the first that fires
      wins; the FAQ is consulted only when none fires. */
  function Classify(message: string): (r: Intent)
    ensures r == Greeting <==> MentionsAny(message, GreetingPhrases)
    ensures r == Goodbye <==> !MentionsAny(message, GreetingPhrases) && MentionsAny(message, GoodbyePhrases)
    ensures r == TrackingRequest <==>
      !MentionsAny(message, GreetingPhrases) && !MentionsAny(message, GoodbyePhrases)
      && MentionsAny(message, TrackingPhrases)
    ensures r == HelpRequest <==>
      !MentionsAny(message, GreetingPhrases) && !MentionsAny(message, GoodbyePhrases)
      && !MentionsAny(message, TrackingPhrases) && MentionsAny(message, HelpPhrases)
    ensures r == FaqLookup <==>
      !MentionsAny(message, GreetingPhrases) && !MentionsAny(message, GoodbyePhrases)
      && !MentionsAny(message, TrackingPhrases) && !MentionsAny(message, HelpPhrases)
  {
    if IsGreeting(message) then Greeting
    else if IsGoodbye(message) then Goodbye
    else if IsTrackingRequest(message) then TrackingRequest
    else if IsHelpRequest(message) then HelpRequest
    else FaqLookup
  }

  /** The reply when no intent fires: the best FAQ match's answer, or a
      fallback reply. */
  function FaqReply(message: string, faqs: seq<FaqEntry>, pick: Pick): (r: string)
    ensures FindBestMatch(faqs, message).None? ==> r == FallbackReplies[pick]
    ensures FindBestMatch(faqs, message).Some? ==> r == FindBestMatch(faqs, message).value.answer
  {
    match FindBestMatch(faqs, message)
    case Some(f) => f.answer
    case None => FallbackReplies[pick]
  }

  /** The fallback is used exactly when no active entry scores anything;
      otherwise the reply is the answer of an active entry whose score no
      active entry beats. */
  lemma FaqReplySpec(message: string, faqs: seq<FaqEntry>, pick: Pick)
    ensures (forall x :: x in faqs && x.isActive ==> Score(x, Lower(message)) == 0) ==>
      FaqReply(message, faqs, pick) == FallbackReplies[pick]
    ensures (exists x :: x in faqs && x.isActive && Score(x, Lower(message)) > 0) ==>
      exists best :: Unbeaten(faqs, Lower(message), best) && FaqReply(message, faqs, pick) == best.answer
  {
    FindBestMatchCases(faqs, message);
  }

  /** A reply FaqReply gives is stored text when the catalogue is valid. */
  lemma FaqReplyIsStorable(message: string, faqs: seq<FaqEntry>, pick: Pick)
    requires CatalogueValid(faqs)
    ensures Presentable(FaqReply(message, faqs, pick))
  {
    var found := FindBestMatch(faqs, message);
    if found.None? {
      FallbackRepliesPresentable();
    } else {
      FindBestMatchIsStored(faqs, message);
      var k :| 0 <= k < |faqs| && faqs[k] == found.value;
      assert ValidFaq(found.value);
    }
  }

  /** The reply generateResponse settles on, given the catalogue and the
      random draw. */
  function Respond(message: string, faqs: seq<FaqEntry>, pick: Pick): (r: string)
    ensures Classify(message) == Greeting ==> r in GreetingReplies
    ensures Classify(message) == Goodbye ==> r in GoodbyeReplies
    ensures Classify(message) == TrackingRequest ==> r == TrackingReply(message)
    ensures Classify(message) == HelpRequest ==> r == HelpReply
    ensures Classify(message) == FaqLookup ==> r == FaqReply(message, faqs, pick)
  {
    match Classify(message)
    case Greeting => GreetingReplies[pick]
    case Goodbye => GoodbyeReplies[pick]
    case TrackingRequest => TrackingReply(message)
    case HelpRequest => HelpReply
    case FaqLookup => FaqReply(message, faqs, pick)
  }

  /** A message that thanks the bot is answered with a goodbye, whatever the
      catalogue holds. */
  lemma ThanksIsAGoodbye(faqs: seq<FaqEntry>, pick: Pick)
    ensures Classify("thanks") == Goodbye
    ensures Respond("thanks", faqs, pick) == GoodbyeReplies[pick]
  {
    var m := "thanks";
    assert Lower(m) == m;
    assert OccursAt(Lower(m), GoodbyePhrases[4], 0);
    forall k, i | 0 <= k < |GreetingPhrases|
      ensures !OccursAt(m, GreetingPhrases[k], i)
    {
      OccursAtHead(m, GreetingPhrases[k], i);
    }
  }

  /** Asking the pricing entry's own question gets a greeting: "shipping"
      contains "hi", and the greeting test comes first. */
  lemma ShippingRatesQuestionIsAGreeting(faqs: seq<FaqEntry>, pick: Pick)
    ensures Classify("What are your shipping rates?") == Greeting
    ensures Respond("What are your shipping rates?", faqs, pick) == GreetingReplies[pick]
  {
    var m := "What are your shipping rates?";
    assert Lower(m)[15..17] == "hi";
    assert OccursAt(Lower(m), GreetingPhrases[1], 15);
  }

  /** Every reply can be stored as a bot message without change: it is not
      empty and has no white space at either end (FAQ answers are stored
      trimmed and required). */
  lemma ReplyIsStorable(message: string, faqs: seq<FaqEntry>, pick: Pick)
    requires CatalogueValid(faqs)
    ensures Presentable(Respond(message, faqs, pick))
  {
    match Classify(message)
    case Greeting => GreetingRepliesPresentable();
    case Goodbye => GoodbyeRepliesPresentable();
    case TrackingRequest => TrackingReplyPresentable(message);
    case HelpRequest => HelpReplyPresentable();
    case FaqLookup => FaqReplyIsStorable(message, faqs, pick);
  }

  // ---------------------------------------------------------------------------
  // The store

  /** getChatHistory on a store: the session's messages, or none for an
      unknown id. */
  function ChatHistory(sessions: map<string, ChatSession>, sessionId: string): seq<Message> {
    if sessionId in sessions then sessions[sessionId].messages else []
  }

  /** The sessions after getOrCreateSession: an unknown, non-empty id gets a
      fresh session; otherwise nothing changes. */
  function AfterGetOrCreate(sessions: map<string, ChatSession>, sessionId: string,
                            userId: Option<string>, now: Time): map<string, ChatSession> {
    if sessionId in sessions || sessionId == "" then sessions
    else sessions[sessionId := ChatSession(sessionId, userId, [], true, now, now)]
  }

  /** The session getOrCreateSession hands back: the stored one for a known
      id, otherwise a fresh one with no messages. */
  function OpenedSession(sessions: map<string, ChatSession>, sessionId: string,
                         userId: Option<string>, now: Time): (s: ChatSession)
    ensures sessionId != "" ==>
      sessionId in AfterGetOrCreate(sessions, sessionId, userId, now)
      && AfterGetOrCreate(sessions, sessionId, userId, now)[sessionId] == s
    ensures s.messages == ChatHistory(sessions, sessionId)
  {
    if sessionId in sessions then sessions[sessionId] else ChatSession(sessionId, userId, [], true, now, now)
  }

  /** A session filed under `id`: the id is its own (so ids are unique) and
      not empty, and every message in it passed the schema. */
  predicate SessionValid(id: string, s: ChatSession) {
    id != "" && s.sessionId == id && forall k :: 0 <= k < |s.messages| ==> ValidMessage(s.messages[k])
  }

  predicate SessionsValid(sessions: map<string, ChatSession>) {
    forall id :: id in sessions ==> SessionValid(id, sessions[id])
  }

  predicate CatalogueValid(faqs: seq<FaqEntry>) {
    forall k :: 0 <= k < |faqs| ==> ValidFaq(faqs[k])
  }

  /** Filing a valid session keeps the store valid. */
  lemma PutKeepsValid(sessions: map<string, ChatSession>, id: string, s: ChatSession)
    requires SessionsValid(sessions) && SessionValid(id, s)
    ensures SessionsValid(sessions[id := s])
  {
  }

  /** Appending a message that passed the schema and saving keeps a session valid. */
  lemma AppendKeepsValid(id: string, s: ChatSession, m: Message, now: Time)
    requires SessionValid(id, s) && ValidMessage(m)
    ensures SessionValid(id, PreSave(s.(messages := s.messages + [m]), now))
  {
    var t := s.(messages := s.messages + [m]);
    assert forall k :: 0 <= k < |t.messages| ==> t.messages[k] == if k < |s.messages| then s.messages[k] else m;
  }

  /** Filing a session over the one getOrCreateSession produced is filing it
      over the original store. */
  lemma PutAfterGetOrCreate(sessions: map<string, ChatSession>, sessionId: string,
                            userId: Option<string>, now: Time, s: ChatSession)
    ensures AfterGetOrCreate(sessions, sessionId, userId, now)[sessionId := s] == sessions[sessionId := s]
  {
  }

  /** Filing twice under the same id keeps only the second session. */
  lemma PutTwice(sessions: map<string, ChatSession>, id: string, first: ChatSession, second: ChatSession)
    ensures sessions[id := first][id := second] == sessions[id := second]
  {
  }

  lemma AppendTwo(h: seq<Message>, first: Message, second: Message)
    ensures h + [first] + [second] == h + [first, second]
  {
  }

  class ChatStore {
    var sessions: map<string, ChatSession>
    var faqs: seq<FaqEntry>

    /** Every session is filed under its own (unique, non-empty) id, every
        stored message passed the schema, and every FAQ entry is valid. */
    predicate Valid()
      reads this
    {
      SessionsValid(sessions) && CatalogueValid(faqs)
    }

    constructor ()
      ensures sessions == map[] && faqs == [] && Valid()
    {
      sessions := map[];
      faqs := [];
    }

    /** initializeFAQs: the defaults are inserted only into an empty catalogue. */
    method InitializeFaqs()
      modifies this
      requires Valid()
      ensures Valid()
      ensures faqs == SeedIfEmpty(old(faqs)) && sessions == old(sessions)
    {
      if |faqs| > 0 {
        return;
      }
      DefaultFaqsSpec();
      faqs := DefaultFaqs;
    }

    /** getOrCreateSession: an existing session is returned unchanged (its
        owner is not overwritten); an unknown id gets a fresh session with no
        messages; an empty id fails the schema. */
    method GetOrCreateSession(sessionId: string, userId: Option<string>, now: Time)
      returns (r: Checked<ChatSession>)
      modifies this
      requires Valid()
      ensures Valid() && faqs == old(faqs)
      ensures sessions == AfterGetOrCreate(old(sessions), sessionId, userId, now)
      ensures sessionId in old(sessions) ==> r == Accepted(old(sessions)[sessionId])
      ensures sessionId !in old(sessions) && sessionId != "" ==>
        r == Accepted(ChatSession(sessionId, userId, [], true, now, now))
      ensures sessionId == "" ==> r == Rejected(MissingSessionId)
      ensures r.Accepted? ==> sessionId in sessions && sessions[sessionId] == r.doc
    {
      if sessionId in sessions {
        return Accepted(sessions[sessionId]);
      }
      var created := NewSession(sessionId, userId, now);
      if created.Rejected? {
        return created;
      }
      var saved := PreSave(created.doc, now);
      sessions := sessions[sessionId := saved];
      return Accepted(saved);
    }

    /** addMessage: the message is appended at the end of the session's list
        and the session saved (which refreshes lastActivity); a message the
        schema refuses is not saved, although a session created on the way
        stays. */
    method AddMessage(sessionId: string, sender: string, text: string, userId: Option<string>, now: Time)
      returns (r: Checked<ChatSession>)
      modifies this
      requires Valid()
      ensures Valid() && faqs == old(faqs)
      ensures r.Accepted? <==> sessionId != "" && ParseSender(sender).Some? && !AllSpace(text)
      ensures r.Accepted? ==>
        sessions == old(sessions)[sessionId := r.doc]
        && r.doc.messages == ChatHistory(old(sessions), sessionId) + [Message(ParseSender(sender).value, Trim(text), now)]
        && r.doc.lastActivity == now
        && r.doc.userId == (if sessionId in old(sessions) then old(sessions)[sessionId].userId else userId)
      ensures r.Accepted? ==>
        var start := OpenedSession(old(sessions), sessionId, userId, now);
        r.doc == start.(messages := start.messages + [Message(ParseSender(sender).value, Trim(text), now)],
                         lastActivity := now)
      ensures !r.Accepted? ==> sessions == AfterGetOrCreate(old(sessions), sessionId, userId, now)
    {
      var got := GetOrCreateSession(sessionId, userId, now);
      if got.Rejected? {
        return got;
      }
      var m := NewMessage(sender, text, now);
      if m.Rejected? {
        return Rejected(m.error);
      }
      assert m.doc == Message(ParseSender(sender).value, Trim(text), now);
      var session := got.doc;
      assert session.messages == ChatHistory(old(sessions), sessionId);
      assert session.userId == if sessionId in old(sessions) then old(sessions)[sessionId].userId else userId;
      var saved := PreSave(session.(messages := session.messages + [m.doc]), now);
      AppendKeepsValid(sessionId, session, m.doc, now);
      PutKeepsValid(sessions, sessionId, saved);
      PutAfterGetOrCreate(old(sessions), sessionId, userId, now, saved);
      sessions := sessions[sessionId := saved];
      r := Accepted(saved);
      assert r.doc.messages == ChatHistory(old(sessions), sessionId) + [Message(ParseSender(sender).value, Trim(text), now)];
    }

    /** getChatHistory */
    function GetChatHistory(sessionId: string): (h: seq<Message>)
      reads this
      ensures sessionId !in sessions ==> h == []
      ensures sessionId in sessions ==> h == sessions[sessionId].messages
    {
      ChatHistory(sessions, sessionId)
    }

    /** findBestMatch: one pass over the active entries in priority order,
        keeping the first entry whose score beats every earlier one. */
    method FindBestMatch(userMessage: string) returns (best: Option<FaqEntry>)
      ensures best == FaqMatch.FindBestMatch(faqs, userMessage)
    {
      var candidates := Candidates(faqs);
      var msgLower := Lower(userMessage);
      ghost var scores := Scores(candidates, msgLower);
      best := None;
      var highest := 0;
      ghost var bestIndex: Option<nat> := None;
      for i := 0 to |candidates|
        invariant (bestIndex, highest) == Scan(scores[..i])
        invariant bestIndex.None? ==> best == None
        invariant bestIndex.Some? ==> bestIndex.value < |candidates| && best == Some(candidates[bestIndex.value])
      {
        ScanStep(scores, i);
        var score := ScoreEntry(candidates[i], msgLower);
        if score > highest && score > 0 {
          highest := score;
          best := Some(candidates[i]);
          bestIndex := Some(i);
        }
      }
      assert scores[..|candidates|] == scores;
    }

    /** The if-chain of generateResponse that picks the reply. */
    method ChooseReply(userMessage: string, pick: Pick) returns (reply: string)
      ensures reply == Respond(userMessage, faqs, pick)
    {
      match Classify(userMessage)
      case Greeting =>
        reply := GreetingReplies[pick];
      case Goodbye =>
        reply := GoodbyeReplies[pick];
      case TrackingRequest =>
        reply := TrackingReply(userMessage);
      case HelpRequest =>
        reply := HelpReply;
      case FaqLookup =>
        var faq := FindBestMatch(userMessage);
        reply := if faq.Some? then faq.value.answer else FallbackReplies[pick];
    }

    /** generateResponse: the user's message is saved, a reply is chosen by
        intent (the FAQ only when no intent test fires) and saved after it.
        The session grows by exactly those two messages and no other session
        changes.  A message that is only white space is refused by the schema,
        but only after the session was created. */
    method GenerateResponse(userMessage: string, sessionId: string, userId: Option<string>,
                            pick: Pick, now: Time) returns (r: Checked<string>)
      modifies this
      requires Valid()
      ensures Valid() && faqs == old(faqs)
      ensures r.Accepted? <==> sessionId != "" && !AllSpace(userMessage)
      ensures r.Accepted? ==> r.doc == Respond(userMessage, old(faqs), pick)
      ensures r.Accepted? ==>
        sessionId in sessions
        && sessions == old(sessions)[sessionId := sessions[sessionId]]
        && sessions[sessionId].messages ==
             ChatHistory(old(sessions), sessionId) + [Message(User, Trim(userMessage), now), Message(Bot, r.doc, now)]
      ensures r.Accepted? ==>
        var start := OpenedSession(old(sessions), sessionId, userId, now);
        sessions[sessionId] == start.(messages := sessions[sessionId].messages, lastActivity := now)
      ensures !r.Accepted? ==> sessions == AfterGetOrCreate(old(sessions), sessionId, userId, now)
    {
      assert ParseSender("user") == Some(User) && ParseSender("bot") == Some(Bot);
      ghost var history := ChatHistory(sessions, sessionId);
      ghost var userLine := Message(User, Trim(userMessage), now);
      var added := AddMessage(sessionId, "user", userMessage, userId, now);
      if added.Rejected? {
        return Rejected(added.error);
      }
      assert added.doc.messages == history + [userLine];
      ghost var afterUser := sessions;
      var reply := ChooseReply(userMessage, pick);
      ReplyIsStorable(userMessage, faqs, pick);
      TrimOfTrimmed(reply);
      assert !AllSpace(reply) by {
        assert !IsSpace(reply[0]);
      }
      var botAdded := AddMessage(sessionId, "bot", reply, userId, now);
      assert botAdded.Accepted?;
      assert ChatHistory(afterUser, sessionId) == added.doc.messages;
      assert afterUser == old(sessions)[sessionId := added.doc];
      assert sessions == afterUser[sessionId := botAdded.doc];
      PutTwice(old(sessions), sessionId, added.doc, botAdded.doc);
      ghost var botLine := Message(Bot, reply, now);
      assert botAdded.doc.messages == added.doc.messages + [botLine];
      AppendTwo(history, userLine, botLine);
      assert faqs == old(faqs);
      r := Accepted(reply);
    }
  }
}
