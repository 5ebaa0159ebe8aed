/** The HTTP layer of the site: the bearer-token middleware, the signup and
    signin guards, and the four chat routes, as operations on an abstract
    back end holding the user accounts and the chat store.  Password hashing,
    token signing and token verification are parameters (oracles); the status
    code and body each handler sends are its result. */
module Server {
  import opened Wrappers
  import opened TextUtil
  import opened ChatModel
  import opened Intents
  import opened Sorting
  import opened ChatbotService

  /** What a handler sends: a status with a body, or a status with an error
      message. */
  datatype Reply<T> = Ok(status: int, body: T) | Fail(status: int, error: string)

  /** A request field is truthy in JavaScript exactly when it is present and
      not the empty string. */
  predicate Present(field: Option<string>) {
    field.Some? && field.value != ""
  }

  // ---------------------------------------------------------------------------
  // authenticateToken

  /** The claims a valid token carries. */
  datatype Claims = Claims(userId: string, email: string)

  datatype Auth = MissingToken | BadToken | Authorized(user: Claims)

  /** `authHeader && authHeader.split(' ')[1]`: the second space-separated
      field of the header, when there is one and it is not empty. */
  function BearerToken(header: Option<string>): (token: Option<string>)
    ensures token.Some? <==>
      header.Some? && |Split(header.value, ' ')| >= 2 && Split(header.value, ' ')[1] != ""
    ensures token.Some? ==> token.value == Split(header.value, ' ')[1]
  {
    match header
    case None => None
    case Some(h) =>
      var fields := Split(h, ' ');
      if |fields| >= 2 && fields[1] != "" then Some(fields[1]) else None
  }

  /** "Bearer <token>" gives back the token. */
  lemma BearerTokenRoundTrip(scheme: string, token: string)
    requires ' ' !in scheme && ' ' !in token && token != ""
    ensures BearerToken(Some(scheme + " " + token)) == Some(token)
  {
    SplitAtFirstSeparator(scheme, token, ' ');
    SplitWithoutSeparator(token, ' ');
    assert scheme + " " + token == scheme + [' '] + token;
  }

  /** A header with no space, such as a bare token, carries no token. */
  lemma HeaderWithoutSpaceHasNoToken(header: string)
    requires ' ' !in header
    ensures BearerToken(Some(header)) == None
  {
    SplitWithoutSeparator(header, ' ');
  }

  /** The middleware: 401 when there is no token, 403 when verification
      fails, and otherwise the route runs with the decoded claims. */
  function Authenticate(header: Option<string>, verify: string -> Option<Claims>): (a: Auth)
    ensures a == MissingToken <==> BearerToken(header).None?
    ensures a == BadToken <==> BearerToken(header).Some? && verify(BearerToken(header).value).None?
    ensures a.Authorized? <==> BearerToken(header).Some? && verify(BearerToken(header).value).Some?
    ensures a.Authorized? ==> a.user == verify(BearerToken(header).value).value
  {
    match BearerToken(header)
    case None => MissingToken
    case Some(t) =>
      match verify(t)
      case None => BadToken
      case Some(c) => Authorized(c)
  }

  /** The reply the middleware sends instead of calling the route. */
  function AuthFailure<T>(a: Auth): (r: Reply<T>)
    requires !a.Authorized?
    ensures a == MissingToken ==> r == Fail(401, "Access token required")
    ensures a == BadToken ==> r == Fail(403, "Invalid or expired token")
  {
    if a == MissingToken then Fail(401, "Access token required")
    else Fail(403, "Invalid or expired token")
  }

  // ---------------------------------------------------------------------------
  // Accounts

  datatype SignupForm = SignupForm(
    name: Option<string>, email: Option<string>, phone: Option<string>, address: Option<string>,
    city: Option<string>, state: Option<string>, pincode: Option<string>, password: Option<string>)

  predicate AllPresent(f: SignupForm) {
    Present(f.name) && Present(f.email) && Present(f.phone) && Present(f.address)
    && Present(f.city) && Present(f.state) && Present(f.pincode) && Present(f.password)
  }

  /** A stored account; the password is kept only as its hash. */
  datatype UserAccount = UserAccount(
    id: string, name: string, email: string, phone: string, address: string,
    city: string, state: string, pincode: string, passwordHash: string)

  /** The user object sent back: every field but the password. */
  datatype PublicUser = PublicUser(
    id: string, name: string, email: string, phone: string, address: string,
    city: string, state: string, pincode: string)

  function Public(a: UserAccount): PublicUser {
    PublicUser(a.id, a.name, a.email, a.phone, a.address, a.city, a.state, a.pincode)
  }

  datatype AuthBody = AuthBody(message: string, token: string, user: PublicUser)

  // ---------------------------------------------------------------------------
  // Chat routes

  /** The greeting /api/chat/start sends with a new session id. */
  const StartGreeting: string := "Hello! Welcome to TrakShip. How can I help you today?"

  /** The start greeting is the first of the canned greeting replies. */
  lemma StartGreetingIsFirstGreetingReply()
    ensures StartGreeting == GreetingReplies[0]
  {
  }

  datatype StartBody = StartBody(sessionId: string, message: string, quickReplies: seq<string>)

  datatype MessageBody = MessageBody(response: string, quickReplies: seq<string>, sessionId: string)

  /** The fields of a session the sessions query selects. */
  datatype SessionSummary = SessionSummary(sessionId: string, createdAt: Time, lastActivity: Time,
                                           messages: seq<Message>)

  function Summary(s: ChatSession): SessionSummary {
    SessionSummary(s.sessionId, s.createdAt, s.lastActivity, s.messages)
  }

  /** The most sessions the sessions query returns. */
  const SessionLimit: nat := 10

  function LastActivity(s: ChatSession): int {
    s.lastActivity
  }

  /** The ids of the sessions a user owns. */
  function OwnedIds(sessions: map<string, ChatSession>, userId: string): set<string> {
    set id | id in sessions && sessions[id].userId == Some(userId)
  }

  predicate Listed(r: seq<SessionSummary>, id: string) {
    exists k :: 0 <= k < |r| && r[k].sessionId == id
  }

  function Min(a: nat, b: nat): nat {
    if a < b then a else b
  }

  /** What the sessions query answers for a user: at most ten of the user's
      own sessions, each once, most recent first, and no session left out
      that is more recent than one listed. */
  predicate RecentListing(sessions: map<string, ChatSession>, userId: string, r: seq<SessionSummary>)
  {
    && |r| == Min(SessionLimit, |OwnedIds(sessions, userId)|)
    && (forall k :: 0 <= k < |r| ==>
         r[k].sessionId in OwnedIds(sessions, userId) && r[k] == Summary(sessions[r[k].sessionId]))
    && (forall i, j :: 0 <= i < j < |r| ==> r[i].sessionId != r[j].sessionId)
    && (forall i, j :: 0 <= i < j < |r| ==> r[i].lastActivity >= r[j].lastActivity)
    && (forall id :: id in OwnedIds(sessions, userId) ==>
         Listed(r, id) || forall k :: 0 <= k < |r| ==> sessions[id].lastActivity <= r[k].lastActivity)
  }

  /** The sessions a user owns, in some order, each once. */
  method CollectOwned(sessions: map<string, ChatSession>, userId: string) returns (owned: seq<ChatSession>)
    requires SessionsValid(sessions)
    ensures forall k :: 0 <= k < |owned| ==>
      owned[k].sessionId in OwnedIds(sessions, userId) && sessions[owned[k].sessionId] == owned[k]
    ensures forall i, j :: 0 <= i < j < |owned| ==> owned[i].sessionId != owned[j].sessionId
    ensures forall id :: id in OwnedIds(sessions, userId) ==> sessions[id] in owned
    ensures |owned| == |OwnedIds(sessions, userId)|
  {
    owned := [];
    ghost var done: set<string> := {};
    var rest := sessions.Keys;
    while rest != {}
      invariant rest <= sessions.Keys
      invariant forall x :: x in done <==> x in sessions && x !in rest && sessions[x].userId == Some(userId)
      invariant |owned| == |done|
      invariant forall k :: 0 <= k < |owned| ==>
        owned[k].sessionId in done && sessions[owned[k].sessionId] == owned[k]
      invariant forall i, j :: 0 <= i < j < |owned| ==> owned[i].sessionId != owned[j].sessionId
      invariant forall id :: id in done ==> sessions[id] in owned
      decreases |rest|
    {
      var id :| id in rest;
      if sessions[id].userId == Some(userId) {
        assert id !in done;
        assert sessions[id].sessionId == id;
        var last := sessions[id];
        assert forall k :: 0 <= k < |owned| ==> owned[k].sessionId != id;
        owned := owned + [last];
        assert owned[|owned| - 1] == last;
        done := done + {id};
      }
      rest := rest - {id};
    }
    assert done == OwnedIds(sessions, userId);
  }

  /** find({userId}).sort({lastActivity: -1}).limit(10): the user's own
      sessions, most recent first, at most ten, and no session left out is
      more recent than one returned. */
  method RecentSessions(sessions: map<string, ChatSession>, userId: string)
    returns (r: seq<SessionSummary>)
    requires SessionsValid(sessions)
    ensures |r| == Min(SessionLimit, |OwnedIds(sessions, userId)|)
    ensures forall k :: 0 <= k < |r| ==>
      r[k].sessionId in OwnedIds(sessions, userId) && r[k] == Summary(sessions[r[k].sessionId])
    ensures forall i, j :: 0 <= i < j < |r| ==> r[i].sessionId != r[j].sessionId
    ensures forall i, j :: 0 <= i < j < |r| ==> r[i].lastActivity >= r[j].lastActivity
    ensures forall id :: id in OwnedIds(sessions, userId) ==>
      Listed(r, id) || forall k :: 0 <= k < |r| ==> sessions[id].lastActivity <= r[k].lastActivity
  {
    var owned := CollectOwned(sessions, userId);
    var sorted := SortDesc(owned, LastActivity);
    SortDescSorted(owned, LastActivity);
    SortDescPermutes(owned, LastActivity);
    assert |sorted| == |multiset(sorted)| == |multiset(owned)| == |owned|;
    PermutationKeepsIdsDistinct(owned, sorted);
    var n := Min(SessionLimit, |sorted|);
    r := Summaries(sorted, n);
    TopAreOwned(sessions, userId, owned, sorted, n);
    TopAreMostRecent(sessions, userId, owned, sorted, n);
  }

  /** The summaries of the first `n` sessions of a list. */
  function Summaries(sorted: seq<ChatSession>, n: nat): (r: seq<SessionSummary>)
    requires n <= |sorted|
    ensures |r| == n
    ensures forall k :: 0 <= k < n ==> r[k] == Summary(sorted[k])
  {
    seq(n, k requires 0 <= k < n => Summary(sorted[k]))
  }

  /** Every summary taken from a reordering of the owned sessions is that of
      an owned session, as stored. */
  lemma TopAreOwned(sessions: map<string, ChatSession>, userId: string,
                    owned: seq<ChatSession>, sorted: seq<ChatSession>, n: nat)
    requires multiset(sorted) == multiset(owned)
    requires forall k :: 0 <= k < |owned| ==>
      owned[k].sessionId in OwnedIds(sessions, userId) && sessions[owned[k].sessionId] == owned[k]
    requires n <= |sorted|
    ensures forall k :: 0 <= k < n ==>
      Summaries(sorted, n)[k].sessionId in OwnedIds(sessions, userId)
      && Summaries(sorted, n)[k] == Summary(sessions[Summaries(sorted, n)[k].sessionId])
  {
    forall k | 0 <= k < n
      ensures sorted[k].sessionId in OwnedIds(sessions, userId) && sessions[sorted[k].sessionId] == sorted[k]
    {
      assert sorted[k] in multiset(owned);
    }
  }

  /** Taking a prefix of the most-recent-first order leaves out no owned
      session more recent than one taken. */
  lemma TopAreMostRecent(sessions: map<string, ChatSession>, userId: string,
                         owned: seq<ChatSession>, sorted: seq<ChatSession>, n: nat)
    requires SessionsValid(sessions)
    requires multiset(sorted) == multiset(owned)
    requires forall id :: id in OwnedIds(sessions, userId) ==> sessions[id] in owned
    requires SortedDesc(sorted, LastActivity)
    requires n <= |sorted|
    ensures forall id :: id in OwnedIds(sessions, userId) ==>
      Listed(Summaries(sorted, n), id)
      || forall k :: 0 <= k < n ==> sessions[id].lastActivity <= Summaries(sorted, n)[k].lastActivity
  {
    var r := Summaries(sorted, n);
    forall id | id in OwnedIds(sessions, userId)
      ensures Listed(r, id) || forall k :: 0 <= k < n ==> sessions[id].lastActivity <= r[k].lastActivity
    {
      assert sessions[id] in multiset(sorted);
      var j :| 0 <= j < |sorted| && sorted[j] == sessions[id];
      if j < n {
        assert r[j].sessionId == id;
      } else {
        assert forall k :: 0 <= k < n ==> r[k].lastActivity == LastActivity(sorted[k]) >= LastActivity(sorted[j]);
      }
    }
  }

  /** Reordering a list whose ids are distinct keeps them distinct. */
  lemma PermutationKeepsIdsDistinct(owned: seq<ChatSession>, sorted: seq<ChatSession>)
    requires multiset(sorted) == multiset(owned)
    requires forall a, b :: 0 <= a < b < |owned| ==> owned[a].sessionId != owned[b].sessionId
    ensures forall i, j :: 0 <= i < j < |sorted| ==> sorted[i].sessionId != sorted[j].sessionId
  {
    forall i, j | 0 <= i < j < |sorted|
      ensures sorted[i].sessionId != sorted[j].sessionId
    {
      SortedDistinct(owned, sorted, i, j);
    }
  }

  /** Two positions of a permutation of a list with distinct ids hold
      distinct ids. */
  lemma SortedDistinct(owned: seq<ChatSession>, sorted: seq<ChatSession>, i: nat, j: nat)
    requires multiset(sorted) == multiset(owned)
    requires forall a, b :: 0 <= a < b < |owned| ==> owned[a].sessionId != owned[b].sessionId
    requires i < j < |sorted|
    ensures sorted[i].sessionId != sorted[j].sessionId
  {
    assert sorted[i] in multiset(owned) && sorted[j] in multiset(owned);
    var a :| 0 <= a < |owned| && owned[a] == sorted[i];
    var b :| 0 <= b < |owned| && owned[b] == sorted[j];
    if a == b {
      var m := multiset(sorted);
      assert sorted == sorted[..i] + [sorted[i]] + sorted[i + 1..j] + [sorted[j]] + sorted[j + 1..];
      assert m[sorted[i]] >= 2;
      assert multiset(owned)[owned[a]] >= 2;
      CountOfDistinct(owned, a);
    }
  }

  /** In a list with distinct ids, each element occurs once. */
  lemma {:induction false} CountOfDistinct(owned: seq<ChatSession>, a: nat)
    requires forall x, y :: 0 <= x < y < |owned| ==> owned[x].sessionId != owned[y].sessionId
    requires a < |owned|
    ensures multiset(owned)[owned[a]] == 1
  {
    var rest := owned[..a] + owned[a + 1..];
    assert owned == owned[..a] + [owned[a]] + owned[a + 1..];
    assert forall k :: 0 <= k < |rest| ==> rest[k] != owned[a] by {
      forall k | 0 <= k < |rest|
        ensures rest[k] != owned[a]
      {
        if k < a {
          assert rest[k] == owned[k];
        } else {
          assert rest[k] == owned[k + 1];
        }
      }
    }
    assert owned[a] !in multiset(rest);
  }

  // ---------------------------------------------------------------------------
  // The back end

  class Api {
    /** The accounts, filed by email. */
    var users: map<string, UserAccount>
    const chat: ChatStore

    predicate Valid()
      reads this, chat
    {
      chat.Valid() && forall e :: e in users ==> users[e].email == e
    }

    constructor (store: ChatStore)
      requires store.Valid()
      ensures chat == store && users == map[] && Valid()
    {
      chat := store;
      users := map[];
    }

    /** POST /api/signup: 400 unless all eight fields are given, 409 for a
        registered email; neither creates an account.  Otherwise the account
        is stored with the hashed password and a token is issued for it. */
    method Signup(form: SignupForm, newId: string, hash: string -> string, sign: (string, string) -> string)
      returns (r: Reply<AuthBody>)
      modifies this
      requires Valid()
      ensures Valid()
      ensures r == Fail(400, "All fields are required") <==> !AllPresent(form)
      ensures r == Fail(409, "Email already registered") <==> AllPresent(form) && form.email.value in old(users)
      ensures r.Fail? ==> users == old(users)
      ensures r.Ok? <==> AllPresent(form) && form.email.value !in old(users)
      ensures r.Ok? ==>
        var account := UserAccount(newId, form.name.value, form.email.value, form.phone.value,
                               form.address.value, form.city.value, form.state.value,
                               form.pincode.value, hash(form.password.value));
        users == old(users)[form.email.value := account]
        && r == Ok(201, AuthBody("User registered successfully", sign(newId, form.email.value), Public(account)))
    {
      if !AllPresent(form) {
        return Fail(400, "All fields are required");
      }
      var email := form.email.value;
      if email in users {
        return Fail(409, "Email already registered");
      }
      var account := UserAccount(newId, form.name.value, email, form.phone.value, form.address.value,
                             form.city.value, form.state.value, form.pincode.value, hash(form.password.value));
      users := users[email := account];
      var token := sign(account.id, account.email);
      return Ok(201, AuthBody("User registered successfully", token, Public(account)));
    }

    /** POST /api/signin: 400 when a field is missing; an unknown email and a
        wrong password get the same 401 reply; otherwise 200 with a token and
        the stored account. */
    method Signin(email: Option<string>, password: Option<string>,
                  compare: (string, string) -> bool, sign: (string, string) -> string)
      returns (r: Reply<AuthBody>)
      ensures r == Fail(400, "Email and password are required") <==> !Present(email) || !Present(password)
      ensures r == Fail(401, "Invalid email or password") <==>
        Present(email) && Present(password)
        && (email.value !in users || !compare(password.value, users[email.value].passwordHash))
      ensures r.Ok? <==>
        Present(email) && Present(password)
        && email.value in users && compare(password.value, users[email.value].passwordHash)
      ensures r.Ok? ==>
        var account := users[email.value];
        r == Ok(200, AuthBody("Login successful", sign(account.id, account.email), Public(account)))
    {
      if !Present(email) || !Present(password) {
        return Fail(400, "Email and password are required");
      }
      if email.value !in users {
        return Fail(401, "Invalid email or password");
      }
      var account := users[email.value];
      if !compare(password.value, account.passwordHash) {
        return Fail(401, "Invalid email or password");
      }
      var token := sign(account.id, account.email);
      return Ok(200, AuthBody("Login successful", token, Public(account)));
    }

    /** POST /api/chat/start: a fresh id, the fixed greeting and the quick
        replies; no session is stored until the first message. */
    method StartChat(newSessionId: string) returns (r: Reply<StartBody>)
      ensures r.Ok? && r.status == 200
      ensures r.body.sessionId == newSessionId
      ensures r.body.message == GreetingReplies[0]
      ensures r.body.quickReplies == QuickReplies
    {
      var quickReplies := GetQuickReplies();
      return Ok(200, StartBody(newSessionId, StartGreeting, quickReplies));
    }

    /** POST /api/chat/message: 400 without touching the store when the id or
        the message is missing; otherwise the service answers and the reply
        comes back with the quick replies, or 500 when the service throws. */
    method PostMessage(sessionId: Option<string>, message: Option<string>, userId: Option<string>,
                       pick: Pick, now: Time) returns (r: Reply<MessageBody>)
      modifies chat
      requires Valid()
      ensures Valid() && users == old(users) && chat.faqs == old(chat.faqs)
      ensures r == Fail(400, "Session ID and message are required") <==> !Present(sessionId) || !Present(message)
      ensures !Present(sessionId) || !Present(message) ==> chat.sessions == old(chat.sessions)
      ensures r == Fail(500, "Error processing message") <==>
        Present(sessionId) && Present(message) && AllSpace(message.value)
      ensures r == Fail(500, "Error processing message") ==>
        chat.sessions == AfterGetOrCreate(old(chat.sessions), sessionId.value, userId, now)
      ensures r.Ok? ==>
        r.status == 200
        && r.body == MessageBody(Respond(message.value, old(chat.faqs), pick), QuickReplies, sessionId.value)
        && sessionId.value in chat.sessions
        && chat.sessions == old(chat.sessions)[sessionId.value := chat.sessions[sessionId.value]]
        && chat.sessions[sessionId.value].messages ==
             ChatHistory(old(chat.sessions), sessionId.value)
             + [Message(User, Trim(message.value), now), Message(Bot, r.body.response, now)]
      ensures r.Ok? ==>
        var start := OpenedSession(old(chat.sessions), sessionId.value, userId, now);
        chat.sessions[sessionId.value] ==
          start.(messages := chat.sessions[sessionId.value].messages, lastActivity := now)
    {
      if !Present(sessionId) || !Present(message) {
        return Fail(400, "Session ID and message are required");
      }
      var response := chat.GenerateResponse(message.value, sessionId.value, userId, pick, now);
      if response.Rejected? {
        return Fail(500, "Error processing message");
      }
      var quickReplies := GetQuickReplies();
      return Ok(200, MessageBody(response.doc, quickReplies, sessionId.value));
    }

    /** GET /api/chat/history/:sessionId: the session's messages in the order
        they were appended, or none for an unknown id. */
    method History(sessionId: string) returns (r: Reply<seq<Message>>)
      requires Valid()
      ensures r.Ok? && r.status == 200
      ensures sessionId !in chat.sessions ==> r.body == []
      ensures sessionId in chat.sessions ==> r.body == chat.sessions[sessionId].messages
    {
      var history := chat.GetChatHistory(sessionId);
      return Ok(200, history);
    }

    /** GET /api/chat/sessions behind the middleware: the caller's own
        sessions, most recent first, at most ten. */
    method Sessions(header: Option<string>, verify: string -> Option<Claims>)
      returns (r: Reply<seq<SessionSummary>>)
      requires Valid()
      ensures !Authenticate(header, verify).Authorized? ==> r == AuthFailure(Authenticate(header, verify))
      ensures Authenticate(header, verify).Authorized? ==>
        var owner := Authenticate(header, verify).user.userId;
        r.Ok? && r.status == 200 && RecentListing(chat.sessions, owner, r.body)
    {
      var auth := Authenticate(header, verify);
      if !auth.Authorized? {
        return AuthFailure(auth);
      }
      var list := RecentSessions(chat.sessions, auth.user.userId);
      return Ok(200, list);
    }
  }
}
