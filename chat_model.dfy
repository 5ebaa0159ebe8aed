/** The three document shapes the chat subsystem stores (chat messages, chat
    sessions and FAQ entries) with the constraints their schemas impose when a
    document is built or saved: the enumerations, `required`, `trim`,
    `lowercase`, the defaults, and the pre-save hook that refreshes a session's
    last-activity time. */
module ChatModel {
  import opened Wrappers
  import opened TextUtil

  /** A point in time as the store records it (Date.now); only its order matters. */
  type Time = int

  /** Why the schema refuses a document. */
  datatype ValidationError =
    | InvalidSender | MissingText
    | MissingSessionId
    | MissingQuestion | MissingAnswer | InvalidCategory

  datatype Checked<T> = Accepted(doc: T) | Rejected(error: ValidationError)

  // ---------------------------------------------------------------------------
  // Message

  /** The `sender` enumeration: 'user' or 'bot', nothing else. */
  datatype Sender = User | Bot

  function SenderName(s: Sender): string {
    match s
    case User => "user"
    case Bot => "bot"
  }

  /** The enum validator: the only strings accepted are the two names. */
  function ParseSender(name: string): (r: Option<Sender>)
    ensures r.Some? <==> name == "user" || name == "bot"
    ensures r.Some? ==> SenderName(r.value) == name
  {
    if name == "user" then Some(User)
    else if name == "bot" then Some(Bot)
    else None
  }

  lemma SenderNameRoundTrip(s: Sender)
    ensures ParseSender(SenderName(s)) == Some(s)
  {
  }

  datatype Message = Message(sender: Sender, text: string, timestamp: Time)

  /** What the schema guarantees of every stored message text. */
  predicate ValidMessage(m: Message) {
    m.text != "" && IsTrimmed(m.text)
  }

  /** Builds a message document: the sender must be one of the enumeration, the
      text is stored trimmed and is required (so a white-space-only text is
      refused), and the timestamp defaults to the current time. */
  function NewMessage(sender: string, text: string, now: Time): (r: Checked<Message>)
    ensures r.Accepted? <==> ParseSender(sender).Some? && !AllSpace(text)
    ensures r.Accepted? ==> SenderName(r.doc.sender) == sender && r.doc.timestamp == now
    ensures r.Accepted? ==> r.doc.text == Trim(text) && ValidMessage(r.doc)
    ensures !r.Accepted? ==> r.error == if ParseSender(sender).None? then InvalidSender else MissingText
  {
    TrimSpec(text);
    TrimEmptyIff(text);
    match ParseSender(sender)
    case None => Rejected(InvalidSender)
    case Some(s) =>
      var t := Trim(text);
      if t == "" then Rejected(MissingText) else Accepted(Message(s, t, now))
  }

  // ---------------------------------------------------------------------------
  // ChatSession

  datatype ChatSession = ChatSession(
    sessionId: string,
    userId: Option<string>,
    messages: seq<Message>,
    isActive: bool,
    createdAt: Time,
    lastActivity: Time)

  /** A fresh session document: the id is required, the owner is optional, the
      message list starts empty, isActive defaults to true and both times
      default to the current time. */
  function NewSession(sessionId: string, userId: Option<string>, now: Time): (r: Checked<ChatSession>)
    ensures r.Accepted? <==> sessionId != ""
    ensures r.Accepted? ==> r.doc.sessionId == sessionId && r.doc.userId == userId
    ensures r.Accepted? ==> r.doc.messages == [] && r.doc.isActive
    ensures r.Accepted? ==> r.doc.createdAt == now && r.doc.lastActivity == now
  {
    if sessionId == "" then Rejected(MissingSessionId)
    else Accepted(ChatSession(sessionId, userId, [], true, now, now))
  }

  /** The pre-save hook: lastActivity becomes the current time exactly when the
      session has at least one message; otherwise it and everything else is
      left as it was. */
  function PreSave(s: ChatSession, now: Time): (r: ChatSession)
    ensures |s.messages| > 0 ==> r.lastActivity == now
    ensures |s.messages| == 0 ==> r == s
    ensures r.(lastActivity := s.lastActivity) == s
  {
    if |s.messages| > 0 then s.(lastActivity := now) else s
  }

  /** Saving twice at the same instant is the same as saving once. */
  lemma PreSaveIdempotent(s: ChatSession, now: Time)
    ensures PreSave(PreSave(s, now), now) == PreSave(s, now)
  {
  }

  // ---------------------------------------------------------------------------
  // FAQ entry

  /** The `category` enumeration. */
  datatype Category = Shipping | Tracking | Delivery | Pricing | Account | General | Support

  function CategoryName(c: Category): string {
    match c
    case Shipping => "shipping"
    case Tracking => "tracking"
    case Delivery => "delivery"
    case Pricing => "pricing"
    case Account => "account"
    case General => "general"
    case Support => "support"
  }

  /** The enum validator: exactly the seven names are accepted. */
  function ParseCategory(name: string): (r: Option<Category>)
    ensures r.Some? ==> CategoryName(r.value) == name
  {
    match name
    case "shipping" => Some(Shipping)
    case "tracking" => Some(Tracking)
    case "delivery" => Some(Delivery)
    case "pricing" => Some(Pricing)
    case "account" => Some(Account)
    case "general" => Some(General)
    case "support" => Some(Support)
    case _ => None
  }

  /** A refused name is the name of no category. */
  lemma ParseCategoryRefuses(name: string)
    ensures ParseCategory(name).None? <==> forall c :: CategoryName(c) != name
  {
    if ParseCategory(name).None? {
      forall c
        ensures CategoryName(c) != name
      {
        CategoryNameRoundTrip(c);
      }
    }
  }

  /** Every category name is accepted and names that category again. */
  lemma CategoryNameRoundTrip(c: Category)
    ensures ParseCategory(CategoryName(c)) == Some(c)
  {
  }

  datatype FaqEntry = FaqEntry(
    question: string,
    keywords: seq<string>,
    answer: string,
    category: Category,
    isActive: bool,
    priority: int)

  /** A keyword as stored: trimmed and lower-cased. */
  function NormalizeKeyword(k: string): string {
    Lower(Trim(k))
  }

  predicate NormalKeyword(k: string) {
    IsTrimmed(k) && forall i :: 0 <= i < |k| ==> !IsUpper(k[i])
  }

  /** What the schema guarantees of every stored FAQ entry. */
  predicate ValidFaq(f: FaqEntry) {
    f.question != "" && IsTrimmed(f.question)
    && f.answer != "" && IsTrimmed(f.answer)
    && forall k :: 0 <= k < |f.keywords| ==> NormalKeyword(f.keywords[k])
  }

  /** A normalised keyword is trimmed and has no upper-case letter, and
      normalising it again changes nothing. */
  lemma NormalizeKeywordSpec(k: string)
    ensures NormalKeyword(NormalizeKeyword(k))
    ensures NormalizeKeyword(NormalizeKeyword(k)) == NormalizeKeyword(k)
  {
    TrimSpec(k);
    var t := Trim(k);
    var n := Lower(t);
    assert IsTrimmed(n);
    TrimOfTrimmed(n);
    LowerIdempotent(t);
  }

  /** The keywords setter: every keyword trimmed and lower-cased, in order. */
  function NormalizeKeywords(keywords: seq<string>): (kws: seq<string>)
    ensures |kws| == |keywords|
    ensures forall k :: 0 <= k < |keywords| ==> kws[k] == NormalizeKeyword(keywords[k])
    ensures forall k :: 0 <= k < |kws| ==> NormalKeyword(kws[k])
  {
    var kws := seq(|keywords|, i requires 0 <= i < |keywords| => NormalizeKeyword(keywords[i]));
    assert forall k :: 0 <= k < |kws| ==> NormalKeyword(kws[k]) by {
      forall k | 0 <= k < |kws|
        ensures NormalKeyword(kws[k])
      {
        NormalizeKeywordSpec(keywords[k]);
      }
    }
    kws
  }

  /** Builds an FAQ document: question and answer are stored trimmed and are
      required, the category must be one of the enumeration, every keyword is
      stored trimmed and lower-cased, isActive defaults to true and priority
      defaults to 1. */
  function NewFaq(question: string, keywords: seq<string>, answer: string, category: string,
                  isActive: Option<bool>, priority: Option<int>): (r: Checked<FaqEntry>)
    ensures r.Accepted? <==> !AllSpace(question) && !AllSpace(answer) && ParseCategory(category).Some?
    ensures r.Accepted? ==> ValidFaq(r.doc)
    ensures r.Accepted? ==> r.doc.question == Trim(question) && r.doc.answer == Trim(answer)
    ensures r.Accepted? ==> CategoryName(r.doc.category) == category
    ensures r.Accepted? ==> |r.doc.keywords| == |keywords|
    ensures r.Accepted? ==> forall k :: 0 <= k < |keywords| ==> r.doc.keywords[k] == NormalizeKeyword(keywords[k])
    ensures r.Accepted? ==> r.doc.isActive == isActive.GetOr(true) && r.doc.priority == priority.GetOr(1)
  {
    TrimSpec(question);
    TrimEmptyIff(question);
    TrimSpec(answer);
    TrimEmptyIff(answer);
    var q := Trim(question);
    var a := Trim(answer);
    var kws := NormalizeKeywords(keywords);
    if q == "" then Rejected(MissingQuestion)
    else if a == "" then Rejected(MissingAnswer)
    else match ParseCategory(category)
      case None => Rejected(InvalidCategory)
      case Some(c) => Accepted(FaqEntry(q, kws, a, c, isActive.GetOr(true), priority.GetOr(1)))
  }
}
