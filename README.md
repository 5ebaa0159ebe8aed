# TrakShip chat and tracking core, modelled in Dafny

TrakShip is a small shipping site. A Node/Express server and a MongoDB store sit behind a few browser scripts. This project models the rule-bearing core of the site and proves what that core promises:

- **the chatbot service**: ordered intent tests, the FAQ scorer and its best-match choice, the tracking-number extractor, the session log and the seed-once FAQ catalogue;
- **the schemas**: the checks that messages, sessions and FAQ entries must pass, and the pre-save `lastActivity` hook;
- **the server routes**: the bearer-token middleware, the signup and signin guards, and the four chat routes, run over an abstract back end;
- **the chat widget**: its state machine of open, typing and message history;
- **the tracking page**: its ID validator;
- **the simulated route map**: its ticks and timeline classification;
- **the client auth script**: its form checks and its local-storage session keys.

One module per source file:

| module | file | form |
|---|---|---|
| `TextUtil` | string helpers shared by all modules: ASCII `toLowerCase`, `includes`, `split(' ')`, `trim` | functions and lemmas |
| `Sorting` | the descending sort used by `sort({priority: -1})` and `sort({lastActivity: -1})` | a stable insertion sort, with lemmas |
| `ChatModel` | `models/Chatbot.js` | datatypes; each schema check is a function returning `Accepted(doc)` or `Rejected(error)` |
| `Intents` | the pure half of `services/chatbotService.js` | predicates, replies and the tracking-number extractor |
| `FaqMatch` | `findBestMatch` in `services/chatbotService.js` | a specification function, plus the method `ScoreEntry` that carries the source's loops |
| `FaqCatalogue` | the ten default entries of `initializeFAQs` | constants and lemmas |
| `ChatbotService` | the store side of `services/chatbotService.js` | class `ChatStore`, which holds a session map and an FAQ sequence |
| `Server` | `server.js` | class `Api` over a `ChatStore`, with a map of user accounts |
| `ChatWidget` | `public/js/chatbot.js` | class `TrakShipChatbot` |
| `Tracker` | `public/js/tracker.js` | class `TrackingPage` |
| `RouteMap` | `public/js/map.js` | class `RouteSimulation` over an `array` of timeline items |
| `AuthClient` | `public/js/auth.js` | class `AuthPage` over a local-storage map |

Anything nondeterministic or external becomes a parameter:

- the random choice among three canned replies is an index `pick: Pick` (0 to 2);
- the clock is a `Time` value;
- bcrypt and jwt are oracle functions: `hash`, `compare`, `sign` and `verify`;
- the session id made by `generateSessionId` is passed in;
- the outcome of every `fetch` is a datatype of success, error status or no answer.

The model keeps the source's quirks as written:

- The intent tests match inside words. "shipping" contains "hi", so it counts as a greeting.
- An empty user word produced by `split(' ')` matches every question word longer than three characters.
- Tracking numbers are extracted from the original-case text. The intents are tested on the lower-cased text.

## Model

| member | source | states |
|---|---|---|
| TextUtil.LowerChar | services/chatbotService.js:126 | a lower-cased character is never an upper-case ASCII letter, and any other character is kept |
| TextUtil.Lower | services/chatbotService.js:126 | lower-casing keeps the length and lower-cases each character in place |
| TextUtil.LowerOfLower | services/chatbotService.js:126 | a string with no upper-case letter is its own lower-case form |
| TextUtil.LowerIdempotent | services/chatbotService.js:126 | lower-casing twice is lower-casing once |
| TextUtil.IncludesIff | services/chatbotService.js:136 | `includes` holds exactly when the needle occurs at some index |
| TextUtil.IncludesAt | services/chatbotService.js:136 | an occurrence at any index makes `includes` true |
| TextUtil.IncludesEmpty | services/chatbotService.js:146 | every string includes the empty string |
| TextUtil.IncludesAny | services/chatbotService.js:202 | `some(p => s.includes(p))` holds exactly when some phrase of the list is included |
| TextUtil.JoinSplit | services/chatbotService.js:142-143 | joining the pieces of `split(' ')` with the separator gives back the original text, so no character is lost |
| TextUtil.SplitWithoutSeparator | services/chatbotService.js:142-143 | a text without the separator splits into itself alone |
| TextUtil.SplitAtFirstSeparator | services/chatbotService.js:142-143 | splitting at the first separator gives the part before it, followed by the split of the rest |
| TextUtil.SplitPiecesHaveNoSeparator | services/chatbotService.js:142-143 | no piece contains the separator |
| TextUtil.DoubledSeparatorGivesEmptyPiece | services/chatbotService.js:143 | two spaces in a row yield an empty user word |
| TextUtil.LeadingSeparatorGivesEmptyPiece | services/chatbotService.js:143 | a leading space yields an empty first word |
| TextUtil.TrimStart | public/js/tracker.js:9 | the result is a suffix of the input that starts with a non-space, and only spaces were dropped |
| TextUtil.TrimEnd | public/js/tracker.js:9 | the result is a prefix of the input that ends with a non-space, and only spaces were dropped |
| TextUtil.TrimSpec | models/Chatbot.js:13 | the trimmed text is trimmed and occurs in the input with only white space around it |
| TextUtil.TrimOfTrimmed | models/Chatbot.js:13 | trimming leaves a trimmed text alone |
| TextUtil.TrimIdempotent | models/Chatbot.js:13 | trimming twice is trimming once |
| TextUtil.TrimEmptyIff | public/js/tracker.js:9-11 | the trimmed text is empty exactly when the input is all white space |
| Sorting.InsertPermutes | services/chatbotService.js:125 | inserting adds exactly one element and loses none |
| Sorting.InsertSorted | services/chatbotService.js:125 | inserting into a descending list keeps it descending |
| Sorting.SortDescSorted | services/chatbotService.js:125 | the sort's result is in descending key order |
| Sorting.SortDescPermutes | services/chatbotService.js:125 | the sort's result is a permutation of its input |
| Sorting.InsertAtEnd | services/chatbotService.js:125 | an element no greater than all others is inserted last, so ties keep their order |
| Sorting.SortDescOfSorted | services/chatbotService.js:125 | the sort is stable: an already descending list is left unchanged |
| ChatModel.ParseSender | models/Chatbot.js:5-9 | a sender is accepted exactly when it is "user" or "bot", and its name is the given string |
| ChatModel.SenderNameRoundTrip | models/Chatbot.js:8 | parsing a sender's name gives the sender back |
| ChatModel.NewMessage | models/Chatbot.js:4-19 | a message is accepted exactly when its sender is valid and its text is not all white space; the stored text is the trimmed text and the timestamp is the current time; otherwise the error names the failing field |
| ChatModel.NewSession | models/Chatbot.js:22-48 | a session is accepted exactly when its id is not empty; it starts with no messages, active, with both timestamps set to the current time |
| ChatModel.PreSave | models/Chatbot.js:85-90 | on save, `lastActivity` becomes the current time when there are messages; otherwise the session is unchanged; no other field ever changes |
| ChatModel.PreSaveIdempotent | models/Chatbot.js:85-90 | saving twice at the same time is the same as saving once |
| ChatModel.ParseCategory | models/Chatbot.js:67-71 | an accepted category has the given name |
| ChatModel.ParseCategoryRefuses | models/Chatbot.js:70 | a category is refused exactly when it is none of the seven names |
| ChatModel.CategoryNameRoundTrip | models/Chatbot.js:70 | parsing a category's name gives the category back |
| ChatModel.NormalizeKeywordSpec | models/Chatbot.js:57-61 | a stored keyword is trimmed and lower-case, and storing it again changes nothing |
| ChatModel.NormalizeKeywords | models/Chatbot.js:57-61 | every keyword is normalised in place, with none added, dropped or reordered |
| ChatModel.NewFaq | models/Chatbot.js:51-82 | an entry is accepted exactly when its question and answer are not blank and its category is one of the seven; the accepted entry is valid, its texts are trimmed, its keywords are normalised one by one, and `isActive` and `priority` default to true and 1 |
| Intents.PhraseTestIff | services/chatbotService.js:200-221 | testing the lower-cased message against a phrase list is the same as asking whether some phrase occurs in it |
| Intents.IsGreeting | services/chatbotService.js:200-203 | a greeting is a message in which one of the seven greeting phrases occurs, inside words included |
| Intents.IsGoodbye | services/chatbotService.js:206-209 | a goodbye is a message in which one of the six goodbye phrases occurs |
| Intents.IsTrackingRequest | services/chatbotService.js:212-215 | a tracking request is a message in which one of the five tracking phrases occurs |
| Intents.IsHelpRequest | services/chatbotService.js:218-221 | a help request is a message in which one of the five help phrases occurs |
| Intents.ShippingIsGreeting | services/chatbotService.js:201-202 | "shipping" is a greeting because it contains "hi" |
| Intents.IntentTestsIgnoreCase | services/chatbotService.js:202 | every intent test gives the same answer on the message and on its lower-cased form |
| Intents.GetQuickReplies | services/chatbotService.js:286-295 | six quick replies, from "Track my package" to "Services offered" |
| Intents.GreetingRepliesPresentable | services/chatbotService.js:224-231 | each canned greeting is non-empty and trimmed, so it can be stored as a bot message |
| Intents.GoodbyeRepliesPresentable | services/chatbotService.js:234-241 | each canned goodbye can be stored as a bot message |
| Intents.FallbackRepliesPresentable | services/chatbotService.js:270-277 | each fallback reply can be stored as a bot message |
| Intents.HelpReplyPresentable | services/chatbotService.js:258-267 | the help text can be stored as a bot message |
| Intents.SwTokenIsGeneric | services/chatbotService.js:246 | every `SW\d{9}IN` number also matches the second alternative |
| Intents.TokenLengthUnique | services/chatbotService.js:246 | at most one tracking number starts at any index, so the first match is well defined |
| Intents.MatchAtSpec | services/chatbotService.js:246 | the matcher finds the number that starts at an index exactly when one exists |
| Intents.FirstMatchFromSpec | services/chatbotService.js:246-247 | the scan returns the leftmost tracking number at or after its start, and none when there is none |
| Intents.ExtractTrackingNumberSpec | services/chatbotService.js:246-250 | the extracted text is a tracking number occurring in the message with no number starting before it; when nothing is extracted, the message holds no tracking number |
| Intents.NoUpperCaseNoTrackingNumber | services/chatbotService.js:246 | a message without upper-case letters holds no tracking number |
| Intents.LowerCasedMessageYieldsNoTrackingNumber | services/chatbotService.js:244-250 | extraction on the lower-cased text would never find anything, which is why it runs on the original text |
| Intents.ExtractAfterLowerPrefix | services/chatbotService.js:246-250 | a number preceded only by characters that are not upper-case letters is the one extracted |
| Intents.TrackingReply | services/chatbotService.js:244-255 | with a number found, the reply quotes it right after the fixed prefix; with none, the reply is the fixed prompt, and only then |
| Intents.TrackSwNumberIsEchoed | services/chatbotService.js:244-251 | "track SW123456789IN" is a tracking request and its reply quotes the number |
| Intents.LowerCaseNumberIsNotRecognised | services/chatbotService.js:253 | "track sw123456789in" is a tracking request but gets the prompt, because lower-case numbers are not matched |
| Intents.TrackingReplyPresentable | services/chatbotService.js:244-255 | every tracking reply can be stored as a bot message |
| FaqMatch.Count | services/chatbotService.js:135-149 | a count of matching elements never exceeds the length |
| FaqMatch.CountIsCardinality | services/chatbotService.js:135-149 | the count is the number of matching positions |
| FaqMatch.CountZeroIff | services/chatbotService.js:135-149 | the count is zero exactly when no element matches |
| FaqMatch.Overlaps | services/chatbotService.js:146 | a question word overlaps the user's words exactly when some user word contains it or is contained in it |
| FaqMatch.ScoreCounts | services/chatbotService.js:131-149 | an entry's score is 2 for each keyword position found in the lower-cased message plus 1 for each long question word that overlaps a user word |
| FaqMatch.ScoreZeroIff | services/chatbotService.js:131-149 | an entry scores 0 exactly when none of its keywords occurs and no question word earns a point |
| FaqMatch.EmptyUserWordMatchesEveryLongWord | services/chatbotService.js:143-146 | when the user words include "", every question word longer than three characters earns its point |
| FaqMatch.DoubledSpaceScoresEveryLongWord | services/chatbotService.js:143-146 | a message with two spaces in a row scores at least one point per long question word |
| FaqMatch.ScoreEntry | services/chatbotService.js:132-149 | the two scoring loops compute exactly the entry's score |
| FaqMatch.Scores | services/chatbotService.js:131-149 | one score per entry, in order |
| FaqMatch.ScanSpec | services/chatbotService.js:128-157 | the running maximum bounds every score; nothing is chosen exactly when the maximum is 0; the chosen index is the first with the maximum score |
| FaqMatch.ScanResult | services/chatbotService.js:151-157 | the loop's choice is none exactly when all scores are 0, and otherwise is exactly the first index with the greatest positive score (the strict `>` keeps the earlier entry on a tie) |
| FaqMatch.FirstBestUnique | services/chatbotService.js:151 | at most one index is the first best |
| FaqMatch.ActiveOnly | services/chatbotService.js:125 | the query keeps only active entries |
| FaqMatch.ActiveOnlyMembers | services/chatbotService.js:125 | an entry is kept exactly when it is stored and active, with its multiplicity |
| FaqMatch.ActiveOnlyAllActive | services/chatbotService.js:125 | a catalogue of active entries is kept whole |
| FaqMatch.CandidatesSpec | services/chatbotService.js:125 | the candidates are the active entries, sorted by descending priority, a permutation of the filtered list |
| FaqMatch.CandidatesKeepOrder | services/chatbotService.js:125 | active entries of equal priority keep their stored order |
| FaqMatch.BestMatchFirst | services/chatbotService.js:128-157 | the loop keeps nothing exactly when every score is 0; otherwise it keeps the first entry whose score is positive and highest, because a later tie fails the strict `>` |
| FaqMatch.BestMatchNoneIff | services/chatbotService.js:128-157 | no match exactly when every entry of the list scores 0 |
| FaqMatch.BestMatchSpec | services/chatbotService.js:128-157 | a match is an entry of the list with a positive score that no entry beats, and no earlier entry has the same score |
| FaqMatch.FindBestMatchSpec | services/chatbotService.js:124-158 | `findBestMatch` is null exactly when every active entry scores 0 against the lower-cased message; otherwise it returns an active stored entry with a positive score that no active entry beats, and among the priority-ordered candidates no earlier one has the same score |
| FaqMatch.FindBestMatchIsStored | services/chatbotService.js:124-158 | a returned entry is one of the stored entries |
| FaqMatch.FindBestMatchCases | services/chatbotService.js:151-157 | when all active entries score 0 the result is null; when any scores above 0, an unbeaten entry is returned |
| FaqCatalogue.NormalizeNormalKeyword | models/Chatbot.js:57-61 | storing an already normalised keyword leaves it alone |
| FaqCatalogue.NewFaqKeepsValidEntry | models/Chatbot.js:51-82 | a valid entry passes the schema unchanged, with `isActive` defaulted to true |
| FaqCatalogue.DefaultFaqsSpec | services/chatbotService.js:16-87 | there are ten default entries; each passes the schema and is active with priority 1 |
| FaqCatalogue.FirstDefaultsValid | services/chatbotService.js:17-51 | each of the first five default entries passes the schema and is active with priority 1 |
| FaqCatalogue.LastDefaultsValid | services/chatbotService.js:52-86 | each of the last five default entries passes the schema and is active with priority 1 |
| FaqCatalogue.SeedIfEmpty | services/chatbotService.js:12-89 | a non-empty catalogue is left as it is; an empty one receives the ten defaults |
| FaqCatalogue.SeedTwice | services/chatbotService.js:12-14 | seeding twice is seeding once, and an empty catalogue ends with exactly ten entries |
| ChatbotService.Classify | services/chatbotService.js:167-191 | the intent tests run in a fixed order: greeting, goodbye, tracking, help, then the FAQ lookup; each intent is chosen exactly when its test holds and every earlier test fails |
| ChatbotService.FaqReply | services/chatbotService.js:185-190 | the FAQ branch answers with the matched entry's answer, or with the chosen fallback reply when nothing matched |
| ChatbotService.FaqReplySpec | services/chatbotService.js:185-190 | the fallback is used when every active entry scores 0; otherwise the answer is that of an entry no active entry beats |
| ChatbotService.FaqReplyIsStorable | services/chatbotService.js:185-194 | with a valid catalogue the FAQ branch's reply can be stored as a bot message |
| ChatbotService.Respond | services/chatbotService.js:165-191 | the reply is one of the canned greetings, one of the canned goodbyes, the tracking reply, the help text or the FAQ reply, according to the intent |
| ChatbotService.ThanksIsAGoodbye | services/chatbotService.js:207 | "thanks" is a goodbye and is answered with a canned goodbye |
| ChatbotService.ShippingRatesQuestionIsAGreeting | services/chatbotService.js:167-170 | "What are your shipping rates?" is answered with a greeting, never reaching the FAQ lookup |
| ChatbotService.ReplyIsStorable | services/chatbotService.js:194 | with a valid catalogue every reply passes the message schema, so storing the bot message cannot fail |
| ChatbotService.PutKeepsValid | models/Chatbot.js:28-32 | filing a valid session under its own id keeps every session valid and the ids unique |
| ChatbotService.AppendKeepsValid | services/chatbotService.js:113-119 | appending a valid message and saving keeps a session valid |
| ChatbotService.OpenedSession | services/chatbotService.js:94-107 | the session getOrCreateSession returns for a non-empty id is the one filed under that id afterwards, and its messages are the stored history (none for a new id) |
| ChatbotService.PutAfterGetOrCreate | services/chatbotService.js:111-119 | after the append is saved, it no longer matters whether the session was newly created |
| ChatbotService.ChatStore.InitializeFaqs | services/chatbotService.js:12-91 | the catalogue is seeded only when it is empty; sessions are untouched; the store stays valid |
| ChatbotService.ChatStore.GetOrCreateSession | services/chatbotService.js:94-107 | a known id returns its session unchanged, with its `userId` kept; an unknown id creates and stores an empty session; an empty id is refused by the schema |
| ChatbotService.ChatStore.AddMessage | services/chatbotService.js:110-121 | the saved session is the one getOrCreateSession gives (same id, owner, `isActive` and `createdAt`) with exactly one message appended and `lastActivity` set to the current time; no other session and no FAQ entry changes; a bad sender, blank text or empty id is refused, keeping only a session created on the way |
| ChatbotService.ChatStore.GetChatHistory | services/chatbotService.js:280-283 | the history of a known session is its messages, and is empty for an unknown id |
| ChatbotService.ChatStore.FindBestMatch | services/chatbotService.js:124-158 | the scoring loop returns exactly the specified best match |
| ChatbotService.ChatStore.ChooseReply | services/chatbotService.js:165-191 | the if-chain returns exactly the specified reply |
| ChatbotService.ChatStore.GenerateResponse | services/chatbotService.js:161-197 | the session grows by exactly two messages, the trimmed user text and then the returned reply; its id, owner, `isActive` and `createdAt` are those getOrCreateSession gave and `lastActivity` is the current time; other sessions and the catalogue are unchanged; a blank message or an empty id is refused |
| Server.BearerToken | server.js:34-35 | the token is the second space-separated field of the header, when there is one and it is not empty |
| Server.BearerTokenRoundTrip | server.js:35 | "Bearer " followed by a token yields that token |
| Server.HeaderWithoutSpaceHasNoToken | server.js:35-39 | a header without a space carries no token |
| Server.Authenticate | server.js:33-48 | a missing token and a token that fails verification are told apart; otherwise the request carries the verified claims |
| Server.AuthFailure | server.js:37-44 | a missing token gets 401 and an unverifiable one gets 403 |
| Server.StartGreetingIsFirstGreetingReply | server.js:230 | the start greeting is the first canned greeting |
| Server.CollectOwned | server.js:280 | the loop collects each session the user owns exactly once, unchanged |
| Server.RecentSessions | server.js:280-283 | at most ten of the user's sessions, each once, sorted by `lastActivity` descending, with no omitted session more recent than a listed one |
| Server.Summaries | server.js:283 | each listed session shows its id, timestamps and messages |
| Server.TopAreOwned | server.js:280-283 | the first n sorted sessions all belong to the user |
| Server.TopAreMostRecent | server.js:281-282 | a session left out by the limit is no more recent than any listed one |
| Server.PermutationKeepsIdsDistinct | server.js:281 | sorting cannot duplicate a session |
| Server.Api.Signup | server.js:83-153 | 400 exactly when a field is missing and 409 exactly when the email is taken, and neither creates an account; otherwise the account is stored with the hashed password and 201 returns a token and the public fields |
| Server.Api.Signin | server.js:156-202 | 400 exactly when a field is missing; the same 401 for an unknown email and for a wrong password; otherwise 200 with a token and the public fields |
| Server.Api.StartChat | server.js:223-237 | 200 with the given id, the fixed greeting and the six quick replies |
| Server.Api.PostMessage | server.js:240-261 | a missing id or message gives 400 and leaves the store alone; a blank message gives 500 after the session is found or created; otherwise 200 with the service's reply and the quick replies, the session holds the two new messages, keeps the owner, `isActive` and `createdAt` getOrCreateSession gave it and takes the current time as `lastActivity`, and no other session changes; the FAQ entries and users never change |
| Server.Api.History | server.js:264-274 | 200 with the session's messages in append order, or with none for an unknown id |
| Server.Api.Sessions | server.js:277-290 | an unauthenticated request gets the middleware's 401 or 403; otherwise 200 with the caller's recent-session listing |
| ChatWidget.CompletionText | public/js/chatbot.js:220-232 | the bot line shows the server's reply, the error-status text or the connection text |
| ChatWidget.OutgoingEmptyIff | public/js/chatbot.js:183-185 | nothing is sent exactly when no quick-reply text was given and the input is blank |
| ChatWidget.QuickReplyTakesPrecedence | public/js/chatbot.js:183 | a quick-reply text is sent as it is, whatever the input holds |
| ChatWidget.FormatBotMessage | public/js/chatbot.js:269-272 | the formatted text has no newline left and is never shorter |
| ChatWidget.FormatConcat | public/js/chatbot.js:271 | formatting works piece by piece |
| ChatWidget.FormatWithoutNewline | public/js/chatbot.js:271 | a text without a newline is unchanged |
| ChatWidget.FormatNewline | public/js/chatbot.js:271 | each newline becomes `<br>` |
| ChatWidget.TrakShipChatbot.constructor | public/js/chatbot.js:2-8 | no session, closed, no history, not typing |
| ChatWidget.TrakShipChatbot.ToggleChat | public/js/chatbot.js:140-157 | `isOpen` flips, and nothing else changes |
| ChatWidget.TrakShipChatbot.OpenChat | public/js/chatbot.js:355-359 | the chat is open afterwards, whatever it was before |
| ChatWidget.TrakShipChatbot.CloseChat | public/js/chatbot.js:361-365 | the chat is closed afterwards, whatever it was before |
| ChatWidget.TrakShipChatbot.DisplayQuickReplies | public/js/chatbot.js:310-327 | the shown quick replies are the given ones, or none |
| ChatWidget.TrakShipChatbot.StartChatSession | public/js/chatbot.js:159-179 | a successful start stores the id and the quick replies; a failure changes nothing |
| ChatWidget.TrakShipChatbot.DisplayMessage | public/js/chatbot.js:237-267 | exactly one entry is appended to the history, and earlier entries are untouched |
| ChatWidget.TrakShipChatbot.ShowTypingIndicator | public/js/chatbot.js:280-281 | typing is on |
| ChatWidget.TrakShipChatbot.HideTypingIndicator | public/js/chatbot.js:302-303 | typing is off |
| ChatWidget.TrakShipChatbot.BeginSend | public/js/chatbot.js:181-196 | an empty message or a send while typing changes nothing; otherwise the user line is recorded, typing turns on, and the input is cleared only when no quick-reply text was given |
| ChatWidget.TrakShipChatbot.FinishSend | public/js/chatbot.js:215-234 | every completion path turns typing off and appends exactly one bot line |
| ChatWidget.TrakShipChatbot.SendMessage | public/js/chatbot.js:181-235 | an accepted send appends the user line and then the bot line, ends with typing off, clears the input unless a quick-reply text was given, and replaces the quick replies only when the server answered; a refused send changes nothing |
| ChatWidget.TrakShipChatbot.ClickQuickReply | public/js/chatbot.js:319-323 | the quick replies are always cleared; the reply (or, for an empty reply, the trimmed input, which is then cleared) is sent with the user line shown and typing on, unless it is empty or a reply is awaited, in which case history, typing and input are unchanged |
| ChatWidget.TrakShipChatbot.SendPredefinedMessage | public/js/chatbot.js:367-370 | the chat ends open; the text (or, for an empty text, the trimmed input) is sent with the user line shown and typing on, unless it is empty or a reply is awaited, in which case nothing but the window changes; the quick replies are kept |
| Tracker.CheckTrackingId | public/js/tracker.js:9-20 | an all-space ID is rejected as empty before any format check; the ID is accepted exactly when the trimmed text is `SW`, nine digits, `IN` |
| Tracker.AcceptedIdLength | public/js/tracker.js:17 | an accepted ID is exactly 13 characters long |
| Tracker.CheckIgnoresSurroundingSpace | public/js/tracker.js:9 | any white space added before or after an ID does not change the verdict |
| Tracker.AcceptedIdIsRecognisedInChat | public/js/tracker.js:17 | an ID the page accepts is also what the chatbot extracts, alone or after "track " |
| Tracker.TrackingPage.constructor | public/js/tracker.js:2-7 | records which of the button, the input and the result panel exist; an empty input, no result and no alerts |
| Tracker.TrackingPage.ClickTrack | public/js/tracker.js:8-30 | an empty ID raises the empty-ID alert and a bad one the format alert; the result is shown only after both checks pass |
| Tracker.TrackingPage.KeyPress | public/js/tracker.js:33-37 | Enter on the full form raises the empty-ID alert, the format alert or shows the result, exactly as a click; other keys, or a page without the full form, change nothing; the input is never changed |
| Tracker.TrackingPage.TrackShipmentFromChat | public/js/tracker.js:59-64 | when the input exists it takes the given ID; on the full form that ID raises the empty-ID alert, the format alert or shows the result; otherwise alerts and result are unchanged |
| Tracker.TrackingPage.OnChatbotTrackRequest | public/js/tracker.js:67-71 | an event without a non-empty tracking ID changes nothing; otherwise the ID is written into the input (when present) and on the full form gives the alert or result its check calls for |
| RouteMap.LocationName | public/js/map.js:63-70 | a stop has a name exactly when its index is on the route |
| RouteMap.StateName | public/js/map.js:88-91 | indices 0 to 4 map to the fixed state list, and any other index to "Unknown" |
| RouteMap.StopsAreNamed | public/js/map.js:63-77 | every stop on the route has a location and a state |
| RouteMap.ItemAt | public/js/map.js:97-107 | item i is completed exactly when i < k and active exactly when i = k |
| RouteMap.ItemNeverBoth | public/js/map.js:97-107 | no item is both completed and active |
| RouteMap.StatusText | public/js/map.js:112-118 | "Package Received" at 0, "Delivered" at the last index, "In Transit" otherwise |
| RouteMap.StatusAlongTheRoute | public/js/map.js:112-118 | along the route the status reads "In Transit" until the last stop, then "Delivered" |
| RouteMap.RouteSimulation.constructor | public/js/map.js:56-57 | the simulation starts at index 0 with the interval running |
| RouteMap.RouteSimulation.UpdateTimeline | public/js/map.js:94-120 | every timeline item is classified against k, and the status text follows k |
| RouteMap.RouteSimulation.Tick | public/js/map.js:57-85 | before the last stop, a tick advances the index by exactly one and updates the location and the timeline; at the last stop, it clears the interval and changes nothing else |
| RouteMap.RouteSimulation.RunToEnd | public/js/map.js:57-85 | the interval fires once per remaining stop plus once to be cleared; the index ends at the last stop; a run that moved ends with the location line "Delhi, Delhi", the last stop's status ("Delivered" on the five-item timeline) and every earlier item completed with the last one active; a run already at the last stop changes no location, status or timeline |
| AuthClient.CheckAuth | public/js/auth.js:4-22 | on a page with a user menu, the menu is shown exactly when `isLoggedIn` is the string "true", and the links exactly when it is not |
| AuthClient.StoreSession | public/js/auth.js:55-59 | the five session keys are written with the answer's data, and every other key is kept |
| AuthClient.ClearSession | public/js/auth.js:148-152 | exactly the five session keys are removed, and every other key is kept |
| AuthClient.LogoutUndoesLogin | public/js/auth.js:148-152 | logging out after logging in leaves what logging out alone would leave |
| AuthClient.MenuFollowsSession | public/js/auth.js:13-21 | after login the menu is shown; after logout the links are shown |
| AuthClient.CheckSignup | public/js/auth.js:90-99 | the passwords are checked first, then the pincode must be exactly six digits |
| AuthClient.ErrorText | public/js/auth.js:64 | the server's error text is shown when it is present and not empty, and the fallback otherwise |
| AuthClient.AuthPage.constructor | public/js/auth.js:2 | no alerts, no requests, no navigation yet |
| AuthClient.AuthPage.HandleAnswer | public/js/auth.js:53-69 | a success stores the session and goes to the dashboard; a refusal or a network error raises one alert and stores nothing |
| AuthClient.AuthPage.SubmitSignin | public/js/auth.js:27-70 | an empty field raises an alert and sends no request; otherwise one sign-in request goes out; success stores the session, alerts and goes to the dashboard; a refusal alerts the server's error or "Login failed" and a network failure the network alert, both storing nothing and staying on the page |
| AuthClient.AuthPage.SubmitSignup | public/js/auth.js:76-138 | differing passwords or a bad pincode raise their alert and send nothing; otherwise the eight fields are sent; success stores the session, alerts and goes to the dashboard; a refusal alerts the server's error or "Registration failed" and a network failure the network alert, both storing nothing and staying on the page |
| AuthClient.AuthPage.Logout | public/js/auth.js:144-157 | exactly the session keys are removed, one alert is raised and the browser goes home |

## Left out

- MongoDB I/O (`findOne`, `save`, `countDocuments`, `insertMany`, the sorted and limited `find`): these are replaced by the in-memory `ChatStore` and the user map. Failed writes other than schema refusals are not modelled.
- The 500 replies from the `catch` blocks of signup, signin, chat start, history and sessions: these happen only when the database throws, and the database is not modelled. The 500 of `/api/chat/message` is modelled, because a blank message makes the schema refuse the save.
- Signup's `ValidationError` (400) and duplicate-key (11000) paths: they need the user schema, which is not part of this model.
- `/api/user/profile`, the static-page routes and `app.listen`: these are lookups or I/O with no rule of their own.
- Request bodies whose fields are not strings: each field is an optional string, and it is truthy when present and not empty.
- bcrypt and jwt: these are oracle parameters (`hash`, `compare`, `sign`, `verify`). Token expiry is part of `verify`.
- `generateSessionId`: the new id is a parameter of `Server.Api.StartChat`. Neither its format nor its uniqueness is modelled.
- `Math.random`: replaced by the index `pick`. `Date.now` and `new Date()`: replaced by a `Time` value. Each operation takes one `Time`, so in `ChatbotService.ChatStore.GenerateResponse` and `Server.Api.PostMessage` the user line, the bot line and `lastActivity` share one instant. In the source each line is stamped when it is pushed, and the bot line comes after a database round trip, so its timestamp can be later.
- The schemas' `timestamps: true` option (the `createdAt`/`updatedAt` that mongoose adds): no rule depends on it.
- The `userId` of a session is a string, not an ObjectId. Any string is accepted.
- Lower-casing is ASCII-only: `toLowerCase` on letters outside `A`-`Z` is the identity here, so Unicode case mapping is not modelled. Trimming removes exactly the characters of `TextUtil.IsSpace`: tab, line feed, vertical tab, form feed, carriage return, space, U+00A0, U+1680, U+2000 to U+200A, U+2028, U+2029, U+202F, U+205F, U+3000 and U+FEFF. The regular expressions are written as explicit character predicates.
- `FaqMatch.WordHit`: JavaScript's `word.length > 3` counts UTF-16 code units, while the model counts characters (code points). A question word with characters outside the Basic Multilingual Plane can pass the length test in JavaScript and fail it here.
- `ChatModel.FaqEntry`: `priority` is a JavaScript Number and is modelled as an unbounded integer. Fractional, infinite and NaN priorities, and their ordering in the sort, are not modelled.
- `FaqMatch.Candidates` and `FaqMatch.CandidatesSpec`: the database sort promises no order among entries of equal priority. The model uses a stable sort, which is one of the allowed orders, so ties are resolved in stored order.
- `FaqMatch.CandidatesKeepOrder`: states the stable sort's order among equal priorities. MongoDB does not promise that order, so this is a property of the model's chosen sort, not of `find().sort()`.
- `Sorting.SortDescOfSorted`: stability is a property of the model's sort. MongoDB does not promise any order among equal sort keys, so the source does not promise it either.
- DOM rendering, `escapeHtml`, scrolling, resizing, focus, CSS and the badge are not modelled. Alerts are a sequence of strings, and the page shows only whether the tracking result is visible.
- `ChatWidget.FormatBotMessage`: it models only the newline replacement. The HTML escaping is done by the browser and is not part of this model, and the `•` replacement is the identity.
- `getCurrentUserId`, the `Authorization` header and the request body of the widget's `fetch`: the server's answer is an input of the model. The widget's `init` and its event wiring are not modelled.
- Leaflet (the map, markers, polyline, popups) and the interval timing: one `Tick` models one interval callback, and the five-second delay is not modelled.
- The tracking page's `updateTrackingData` timestamp refresh: it is a clock display only.
- `Tracker.TrackingPage.constructor`: which of the button, the input and the result panel exist is given to the constructor instead of looked up in the document. When the input exists but the button does not, `trackShipmentFromChat` writes the ID and then fails on the missing button; the model keeps the written ID and stops there, without the exception.
- `public/js/main.js` is not part of this model. It holds mock form handlers, a random bot reply on a timer, and menu toggles.
- Concurrency: the `async` handlers are modelled as atomic steps, so interleaved appends to the same session are not modelled.
- `AuthClient.StoreSession`: it stores the given strings. Local storage's conversion of a missing field to the string "undefined" is not modelled.
- `Server.CollectOwned` and `Server.RecentSessions`: the order among sessions with equal `lastActivity` is whatever the stable sort gives, while MongoDB does not promise any order for ties.
