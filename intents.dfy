/** The expression-only half of the chat response engine: the four intent
    tests, the canned replies, the tracking-number extractor and the quick
    replies.  Every test lower-cases the message and looks for a fixed phrase
    as a substring, so a phrase is found inside longer words too ("shipping"
    contains "hi"); the tracking number is looked for in the message as typed. */
module Intents {
  import opened Wrappers
  import opened TextUtil

  const GreetingPhrases: seq<string> :=
    ["hello", "hi", "hey", "good morning", "good afternoon", "good evening", "greetings"]
  const GoodbyePhrases: seq<string> :=
    ["bye", "goodbye", "see you", "farewell", "thanks", "thank you"]
  const TrackingPhrases: seq<string> :=
    ["track", "tracking", "where is my", "status", "package"]
  const HelpPhrases: seq<string> :=
    ["help", "support", "assistance", "problem", "issue"]

  /** Some phrase of the list occurs, at some position, in the lower-cased message. */
  ghost predicate MentionsAny(message: string, phrases: seq<string>) {
    exists k, i :: 0 <= k < |phrases| && OccursAt(Lower(message), phrases[k], i)
  }

  /** phrases.some(p => message.toLowerCase().includes(p)) is exactly MentionsAny. */
  lemma {:induction false} PhraseTestIff(message: string, phrases: seq<string>)
    ensures IncludesAny(Lower(message), phrases) <==> MentionsAny(message, phrases)
  {
    var low := Lower(message);
    if IncludesAny(low, phrases) {
      var k :| 0 <= k < |phrases| && Includes(low, phrases[k]);
      IncludesIff(low, phrases[k]);
    } else {
      forall k, i | 0 <= k < |phrases| && OccursAt(low, phrases[k], i)
        ensures false
      {
        IncludesAt(low, phrases[k], i);
      }
    }
  }

  predicate IsGreeting(message: string): (r: bool)
    ensures r <==> MentionsAny(message, GreetingPhrases)
  {
    PhraseTestIff(message, GreetingPhrases);
    IncludesAny(Lower(message), GreetingPhrases)
  }

  predicate IsGoodbye(message: string): (r: bool)
    ensures r <==> MentionsAny(message, GoodbyePhrases)
  {
    PhraseTestIff(message, GoodbyePhrases);
    IncludesAny(Lower(message), GoodbyePhrases)
  }

  predicate IsTrackingRequest(message: string): (r: bool)
    ensures r <==> MentionsAny(message, TrackingPhrases)
  {
    PhraseTestIff(message, TrackingPhrases);
    IncludesAny(Lower(message), TrackingPhrases)
  }

  predicate IsHelpRequest(message: string): (r: bool)
    ensures r <==> MentionsAny(message, HelpPhrases)
  {
    PhraseTestIff(message, HelpPhrases);
    IncludesAny(Lower(message), HelpPhrases)
  }

  /** A phrase found inside a longer word still counts: "shipping" is a greeting. */
  lemma ShippingIsGreeting()
    ensures IsGreeting("shipping")
  {
    assert Lower("shipping") == "shipping";
    assert OccursAt(Lower("shipping"), GreetingPhrases[1], 1);
  }

  /** Case does not matter to the intent tests. */
  lemma IntentTestsIgnoreCase(message: string)
    ensures IsGreeting(Lower(message)) == IsGreeting(message)
    ensures IsGoodbye(Lower(message)) == IsGoodbye(message)
    ensures IsTrackingRequest(Lower(message)) == IsTrackingRequest(message)
    ensures IsHelpRequest(Lower(message)) == IsHelpRequest(message)
  {
    LowerIdempotent(message);
  }

  // ---------------------------------------------------------------------------
  // Canned replies

  /** Which of three canned replies the random draw picks. */
  type Pick = i: int | 0 <= i < 3

  // The longer texts are written as concatenations of short pieces; the
  // pieces join to the exact reply.

  const GreetingReplies: seq<string> := [
    "Hello! Welcome to TrakShip. How can I help " +
      "you today?",
    "Hi there! I'm here to help you with your " +
      "shipping needs. What can I do for you?",
    "Welcome to TrakShip! I can help you track " +
      ("packages, answer questions about our " +
      "services, and more. How may I assist you?")
  ]

  const GoodbyeReplies: seq<string> := [
    "Thank you for using TrakShip! Have a great " +
      "day!",
    "Goodbye! Feel free to return if you have " +
      "any more questions.",
    "Thanks for chatting with us. Safe shipping!"
  ]

  const FallbackReplies: seq<string> := [
    "I'm not sure I understand that question. " +
      ("Could you please rephrase it or ask about " +
      "shipping, tracking, or our services?"),
    "I'd be happy to help, but I didn't quite " +
      ("understand your question. Can you try " +
      "asking about package tracking, shipping " +
      "rates, or delivery information?"),
    "That's an interesting question! I can help " +
      ("you with shipping services, package " +
      "tracking, delivery information, and account " +
      "support. What would you like to know about " +
      "these topics?")
  ]

  const HelpReply: string :=
    "I'm here to help! I can assist you with:\n• " +
    ("Package tracking\n• Shipping rates and " +
    "services\n• Delivery information\n• Account " +
    "questions\n• General support\n\nWhat specific " +
    "question can I answer for you?")

  const TrackingPrompt: string :=
    "I can help you track your package! Please " +
    ("provide your tracking number (format: " +
    "SW123456789IN), or you can visit our Track " +
    "page to enter it there. You can also try " +
    "asking 'track SW123456789IN' with your " +
    "tracking number.")

  const FoundPrefix: string := "I found tracking number "
  const FoundSuffix: string :=
    ". Let me help you track this shipment. If " +
    ("you're on our tracking page, I'll fill it " +
    "in automatically. Otherwise, please visit " +
    "our Track page to see the full tracking " +
    "details.")

  const QuickReplies: seq<string> := [
    "Track my package",
    "Shipping rates",
    "Delivery time",
    "Contact support",
    "Create account",
    "Services offered"
  ]

  /** The suggestion list is fixed: six entries, independent of any input. */
  function GetQuickReplies(): (r: seq<string>)
    ensures |r| == 6 && r[0] == "Track my package" && r[5] == "Services offered"
  {
    QuickReplies
  }

  /** Text that is not empty and has no white space at either end. */
  predicate Presentable(t: string) {
    t != "" && IsTrimmed(t)
  }

  lemma GreetingRepliesPresentable()
    ensures forall k :: 0 <= k < 3 ==> Presentable(GreetingReplies[k])
  {
    assert Presentable(GreetingReplies[0]) by {
      assert GreetingReplies[0][0] == 'H' && GreetingReplies[0][|GreetingReplies[0]| - 1] == '?';
    }
    assert Presentable(GreetingReplies[1]) by {
      assert GreetingReplies[1][0] == 'H' && GreetingReplies[1][|GreetingReplies[1]| - 1] == '?';
    }
    assert Presentable(GreetingReplies[2]) by {
      assert GreetingReplies[2][0] == 'W' && GreetingReplies[2][|GreetingReplies[2]| - 1] == '?';
    }
  }

  lemma GoodbyeRepliesPresentable()
    ensures forall k :: 0 <= k < 3 ==> Presentable(GoodbyeReplies[k])
  {
    assert Presentable(GoodbyeReplies[0]) by {
      assert GoodbyeReplies[0][0] == 'T' && GoodbyeReplies[0][|GoodbyeReplies[0]| - 1] == '!';
    }
    assert Presentable(GoodbyeReplies[1]) by {
      assert GoodbyeReplies[1][0] == 'G' && GoodbyeReplies[1][|GoodbyeReplies[1]| - 1] == '.';
    }
    assert Presentable(GoodbyeReplies[2]) by {
      assert GoodbyeReplies[2][0] == 'T' && GoodbyeReplies[2][|GoodbyeReplies[2]| - 1] == '!';
    }
  }

  lemma FallbackRepliesPresentable()
    ensures forall k :: 0 <= k < 3 ==> Presentable(FallbackReplies[k])
  {
    assert Presentable(FallbackReplies[0]) by {
      assert FallbackReplies[0][0] == 'I' && FallbackReplies[0][|FallbackReplies[0]| - 1] == '?';
    }
    assert Presentable(FallbackReplies[1]) by {
      assert FallbackReplies[1][0] == 'I' && FallbackReplies[1][|FallbackReplies[1]| - 1] == '?';
    }
    assert Presentable(FallbackReplies[2]) by {
      assert FallbackReplies[2][0] == 'T' && FallbackReplies[2][|FallbackReplies[2]| - 1] == '?';
    }
  }

  lemma HelpReplyPresentable()
    ensures Presentable(HelpReply)
  {
    assert HelpReply[0] == 'I' && HelpReply[|HelpReply| - 1] == '?';
  }

  // ---------------------------------------------------------------------------
  // Tracking numbers: /(SW\d{9}IN|[A-Z]{2}\d{8,12}[A-Z]{2})/

  /** The first alternative, SW\d{9}IN. */
  predicate SwToken(t: string) {
    |t| == 13 && t[0] == 'S' && t[1] == 'W' && AllDigits(t[2..11]) && t[11] == 'I' && t[12] == 'N'
  }

  /** The second alternative, [A-Z]{2}\d{8,12}[A-Z]{2}. */
  predicate GenericToken(t: string) {
    12 <= |t| <= 16 && IsUpper(t[0]) && IsUpper(t[1]) && AllDigits(t[2..|t| - 2])
    && IsUpper(t[|t| - 2]) && IsUpper(t[|t| - 1])
  }

  predicate TrackingToken(t: string) {
    SwToken(t) || GenericToken(t)
  }

  /** The first alternative is a special case of the second. */
  lemma SwTokenIsGeneric(t: string)
    requires SwToken(t)
    ensures GenericToken(t)
  {
    assert t[2..|t| - 2] == t[2..11];
  }

  /** A token of length `n` starts at position `j`. */
  predicate TokenAt(s: string, j: int, n: int) {
    0 <= j && 0 <= n && j + n <= |s| && TrackingToken(s[j..j + n])
  }

  /** Where the run of digits that starts at `j` ends. */
  function DigitRunEnd(s: string, j: nat): (k: nat)
    decreases |s| - j
  {
    if j < |s| && IsDigit(s[j]) then DigitRunEnd(s, j + 1) else j
  }

  lemma {:induction false} DigitRunEndAt(s: string, j: nat, k: nat)
    requires j <= k <= |s|
    requires forall m :: j <= m < k ==> IsDigit(s[m])
    requires k == |s| || !IsDigit(s[k])
    ensures DigitRunEnd(s, j) == k
    decreases k - j
  {
    if j < k {
      DigitRunEndAt(s, j + 1, k);
    }
  }

  /** A token ends two letters after the digit run that follows its first two
      letters, so its length is fixed by the text. */
  lemma TokenEndsAfterDigitRun(s: string, i: nat, n: nat)
    requires TokenAt(s, i, n)
    ensures i + n == DigitRunEnd(s, i + 2) + 2
  {
    var t := s[i..i + n];
    if SwToken(t) { SwTokenIsGeneric(t); }
    forall m | i + 2 <= m < i + n - 2
      ensures IsDigit(s[m])
    {
      assert t[2..n - 2][m - i - 2] == s[m];
    }
    assert t[n - 2] == s[i + n - 2];
    DigitRunEndAt(s, i + 2, i + n - 2);
  }

  /** At one position at most one length matches. */
  lemma TokenLengthUnique(s: string, i: nat, a: nat, b: nat)
    requires TokenAt(s, i, a) && TokenAt(s, i, b)
    ensures a == b
  {
    TokenEndsAfterDigitRun(s, i, a);
    TokenEndsAfterDigitRun(s, i, b);
  }

  /** The second alternative at `i` with `d` digits or fewer, trying the
      longest digit run first as the greedy \d{8,12} does. */
  function GenericAt(s: string, i: nat, d: nat): Option<nat>
    decreases d
  {
    if d < 8 then None
    else if i + d + 4 <= |s| && GenericToken(s[i..i + d + 4]) then Some(d + 4)
    else GenericAt(s, i, d - 1)
  }

  /** The length of the regular expression's match that starts at `i`, if any. */
  function MatchAt(s: string, i: nat): Option<nat> {
    if i + 13 <= |s| && SwToken(s[i..i + 13]) then Some(13) else GenericAt(s, i, 12)
  }

  /** The second alternative matches `n` characters at `i`. */
  predicate GenericAtLen(s: string, i: int, n: int) {
    0 <= i && 0 <= n && i + n <= |s| && GenericToken(s[i..i + n])
  }

  lemma {:induction false} GenericAtSpec(s: string, i: nat, d: nat)
    ensures GenericAt(s, i, d).Some? ==> TokenAt(s, i, GenericAt(s, i, d).value)
    ensures GenericAt(s, i, d).None? ==> forall n :: 12 <= n <= d + 4 ==> !GenericAtLen(s, i, n)
    decreases d
  {
    if d >= 8 && !(i + d + 4 <= |s| && GenericToken(s[i..i + d + 4])) {
      GenericAtSpec(s, i, d - 1);
    }
  }

  lemma TokenAtIsGeneric(s: string, i: int, n: int)
    ensures TokenAt(s, i, n) ==> GenericAtLen(s, i, n)
  {
    if TokenAt(s, i, n) && SwToken(s[i..i + n]) {
      SwTokenIsGeneric(s[i..i + n]);
    }
  }

  /** MatchAt finds a match at `i` exactly when some token starts there. */
  lemma MatchAtSpec(s: string, i: nat)
    ensures MatchAt(s, i).Some? ==> TokenAt(s, i, MatchAt(s, i).value)
    ensures MatchAt(s, i).None? ==> forall n :: !TokenAt(s, i, n)
  {
    GenericAtSpec(s, i, 12);
    forall n
      ensures TokenAt(s, i, n) ==> GenericAtLen(s, i, n)
    {
      TokenAtIsGeneric(s, i, n);
    }
  }

  /** The leftmost match at or after position `from`. */
  function FirstMatchFrom(s: string, from: nat): Option<string>
    decreases |s| - from
  {
    if from >= |s| then None
    else match MatchAt(s, from)
      case Some(n) => if from + n <= |s| then Some(s[from..from + n]) else None
      case None => FirstMatchFrom(s, from + 1)
  }

  /** message.match(pattern)[0], or None when there is no match. */
  function ExtractTrackingNumber(message: string): Option<string> {
    FirstMatchFrom(message, 0)
  }

  lemma {:induction false} FirstMatchFromSpec(s: string, from: nat)
    ensures FirstMatchFrom(s, from).Some? ==>
      exists i :: from <= i && TokenAt(s, i, |FirstMatchFrom(s, from).value|)
        && s[i..i + |FirstMatchFrom(s, from).value|] == FirstMatchFrom(s, from).value
        && forall j, n :: from <= j < i ==> !TokenAt(s, j, n)
    ensures FirstMatchFrom(s, from).None? ==> forall j, n :: from <= j ==> !TokenAt(s, j, n)
    decreases |s| - from
  {
    if from < |s| {
      MatchAtSpec(s, from);
      match MatchAt(s, from)
      case Some(n) =>
        assert TokenAt(s, from, n);
      case None =>
        FirstMatchFromSpec(s, from + 1);
    }
  }

  /** The extracted number is a token that occurs in the message, and no token
      starts further left; when nothing is extracted, the message contains no
      token at all. */
  lemma ExtractTrackingNumberSpec(message: string)
    ensures ExtractTrackingNumber(message).Some? ==>
      var t := ExtractTrackingNumber(message).value;
      TrackingToken(t) && exists i :: OccursAt(message, t, i) && forall j, n :: 0 <= j < i ==> !TokenAt(message, j, n)
    ensures ExtractTrackingNumber(message).None? ==> forall j, n :: !TokenAt(message, j, n)
  {
    FirstMatchFromSpec(message, 0);
    if ExtractTrackingNumber(message).Some? {
      var t := ExtractTrackingNumber(message).value;
      var i :| 0 <= i && TokenAt(message, i, |t|) && message[i..i + |t|] == t
        && forall j, n :: 0 <= j < i ==> !TokenAt(message, j, n);
      assert OccursAt(message, t, i);
    }
  }

  /** Every token starts with an upper-case letter, so text without upper-case
      letters (such as a lower-cased message) never yields a tracking number.
      This is why extraction runs on the message as typed. */
  lemma NoUpperCaseNoTrackingNumber(message: string)
    requires forall k :: 0 <= k < |message| ==> !IsUpper(message[k])
    ensures ExtractTrackingNumber(message) == None
  {
    FirstMatchFromSpec(message, 0);
  }

  lemma LowerCasedMessageYieldsNoTrackingNumber(message: string)
    ensures ExtractTrackingNumber(Lower(message)) == None
  {
    NoUpperCaseNoTrackingNumber(Lower(message));
  }

  /** A token preceded only by text without upper-case letters is the one extracted. */
  lemma ExtractAfterLowerPrefix(message: string, i: nat, n: nat)
    requires TokenAt(message, i, n)
    requires forall k :: 0 <= k < i ==> !IsUpper(message[k])
    ensures ExtractTrackingNumber(message) == Some(message[i..i + n])
  {
    FirstMatchFromSpec(message, 0);
    var t := ExtractTrackingNumber(message).value;
    var j :| 0 <= j && TokenAt(message, j, |t|) && message[j..j + |t|] == t
      && forall j', n' :: 0 <= j' < j ==> !TokenAt(message, j', n');
    assert j <= i;
    TokenStartsUpper(message, j, |t|);
    assert j == i;
    TokenLengthUnique(message, i, n, |t|);
  }

  /** Every token starts with an upper-case letter. */
  lemma TokenStartsUpper(s: string, j: int, n: int)
    requires TokenAt(s, j, n)
    ensures IsUpper(s[j])
  {
    assert s[j..j + n][0] == s[j];
  }

  /** getTrackingResponse: the number found in the message as typed is echoed
      back; without one the reply is the fixed prompt. */
  function TrackingReply(message: string): (r: string)
    ensures ExtractTrackingNumber(message).Some? ==>
      OccursAt(r, ExtractTrackingNumber(message).value, |FoundPrefix|)
    ensures ExtractTrackingNumber(message).None? <==> r == TrackingPrompt
  {
    match ExtractTrackingNumber(message)
    case Some(t) =>
      var r := FoundPrefix + t + FoundSuffix;
      assert r[|FoundPrefix|..|FoundPrefix| + |t|] == t;
      assert r[2] == 'f' && TrackingPrompt[2] == 'c';
      r
    case None => TrackingPrompt
  }

  /** "track SW123456789IN" is answered with a reply that repeats the number. */
  lemma TrackSwNumberIsEchoed()
    ensures IsTrackingRequest("track SW123456789IN")
    ensures ExtractTrackingNumber("track SW123456789IN") == Some("SW123456789IN")
    ensures OccursAt(TrackingReply("track SW123456789IN"), "SW123456789IN", |FoundPrefix|)
  {
    var m := "track SW123456789IN";
    assert Lower(m)[0..5] == "track";
    assert OccursAt(Lower(m), TrackingPhrases[0], 0);
    assert m[6..19] == "SW123456789IN";
    assert AllDigits(m[6..19][2..11]);
    assert SwToken(m[6..19]);
    ExtractAfterLowerPrefix(m, 6, 13);
  }

  /** The same request typed in lower case is still a tracking request, but the
      lower-case number is not recognised and the prompt comes back. */
  lemma LowerCaseNumberIsNotRecognised()
    ensures IsTrackingRequest("track sw123456789in")
    ensures TrackingReply("track sw123456789in") == TrackingPrompt
  {
    var m := "track sw123456789in";
    assert Lower(m)[0..5] == "track";
    assert OccursAt(Lower(m), TrackingPhrases[0], 0);
    NoUpperCaseNoTrackingNumber(m);
  }

  lemma TrackingPromptPresentable()
    ensures Presentable(TrackingPrompt)
  {
    assert TrackingPrompt[0] == 'I' && TrackingPrompt[|TrackingPrompt| - 1] == '.';
  }

  lemma FoundReplyPresentable(t: string)
    ensures Presentable(FoundPrefix + t + FoundSuffix)
  {
    var r := FoundPrefix + t + FoundSuffix;
    assert r[0] == FoundPrefix[0] == 'I';
    assert r[|r| - 1] == FoundSuffix[|FoundSuffix| - 1] == '.';
  }

  /** Both tracking replies can be stored as bot messages unchanged. */
  lemma TrackingReplyPresentable(message: string)
    ensures Presentable(TrackingReply(message))
  {
    TrackingPromptPresentable();
    if ExtractTrackingNumber(message).Some? {
      FoundReplyPresentable(ExtractTrackingNumber(message).value);
    }
  }
}
