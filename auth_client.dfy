/** The browser side of sign-in, sign-up and logout: the forms check their
    fields before any request is made, a successful answer stores five
    session keys in the browser's local storage, logout removes exactly those
    five, and every page shows the user menu or the sign-in/sign-up links
    according to the stored flag.  Local storage is a map from keys to
    strings; the server's answer is a parameter. */
module AuthClient {
  import opened Wrappers
  import opened TextUtil

  /** The keys a successful sign-in or sign-up writes and logout removes. */
  const SessionKeys: set<string> := {"isLoggedIn", "authToken", "userEmail", "userName", "userId"}

  /** checkAuth compares the stored flag with the string "true" exactly. */
  predicate LoggedIn(storage: map<string, string>)
  {
    "isLoggedIn" in storage && storage["isLoggedIn"] == "true"
  }

  /** What the page shows: the user menu, and the sign-in and sign-up links. */
  datatype MenuView = MenuView(userMenu: bool, authLinks: bool)

  /** checkAuth: with a user menu on the page, the menu is shown exactly when
      the user is logged in and the links exactly when not; a page without a
      user menu is left as it is. */
  function CheckAuth(storage: map<string, string>, menuPresent: bool, current: MenuView): (view: MenuView)
    ensures !menuPresent ==> view == current
    ensures menuPresent ==> (view.userMenu <==> LoggedIn(storage))
    ensures menuPresent ==> (view.authLinks <==> !LoggedIn(storage))
    ensures menuPresent ==> view.userMenu != view.authLinks
  {
    if LoggedIn(storage) && menuPresent then MenuView(true, false)
    else if menuPresent then MenuView(false, true)
    else current
  }

  /** The user part of a successful answer. */
  datatype SessionData = SessionData(token: string, email: string, name: string, id: string)

  /** The five writes made after a successful sign-in or sign-up. */
  function StoreSession(storage: map<string, string>, data: SessionData): (stored: map<string, string>)
    ensures LoggedIn(stored)
    ensures stored.Keys == storage.Keys + SessionKeys
    ensures stored["authToken"] == data.token && stored["userEmail"] == data.email
    ensures stored["userName"] == data.name && stored["userId"] == data.id
    ensures forall k :: k in storage && k !in SessionKeys ==> stored[k] == storage[k]
  {
    storage["isLoggedIn" := "true"]["authToken" := data.token]["userEmail" := data.email]
      ["userName" := data.name]["userId" := data.id]
  }

  /** The five removals made by logout. */
  function ClearSession(storage: map<string, string>): (cleared: map<string, string>)
    ensures !LoggedIn(cleared)
    ensures cleared.Keys == storage.Keys - SessionKeys
    ensures forall k :: k in cleared ==> cleared[k] == storage[k]
  {
    storage - SessionKeys
  }

  /** Logging out after logging in leaves exactly what logging out alone
      would have left: nothing of the session survives, and nothing else is
      touched. */
  lemma LogoutUndoesLogin(storage: map<string, string>, data: SessionData)
    ensures ClearSession(StoreSession(storage, data)) == ClearSession(storage)
  {
    var a := ClearSession(StoreSession(storage, data));
    var b := ClearSession(storage);
    assert a.Keys == b.Keys;
    forall k | k in a
      ensures a[k] == b[k]
    {
      assert k !in SessionKeys;
    }
  }

  /** After a successful answer every page shows the user menu; after logout
      every page shows the links again. */
  lemma MenuFollowsSession(storage: map<string, string>, data: SessionData, current: MenuView)
    ensures CheckAuth(StoreSession(storage, data), true, current) == MenuView(true, false)
    ensures CheckAuth(ClearSession(storage), true, current) == MenuView(false, true)
  {
  }

  /** The pincode check of the sign-up form: exactly six ASCII digits. */
  predicate ValidPincode(pincode: string)
  {
    |pincode| == 6 && AllDigits(pincode)
  }

  /** The sign-up form's pre-submit checks in order: the passwords first,
      then the pincode. */
  datatype SignupCheck = PasswordsDiffer | BadPincode | SignupReady

  function CheckSignup(password: string, confirmPassword: string, pincode: string): (r: SignupCheck)
    ensures r == PasswordsDiffer <==> password != confirmPassword
    ensures r == BadPincode <==> password == confirmPassword && !ValidPincode(pincode)
    ensures r == SignupReady <==> password == confirmPassword && ValidPincode(pincode)
  {
    if password != confirmPassword then PasswordsDiffer
    else if !ValidPincode(pincode) then BadPincode
    else SignupReady
  }

  /** A request the forms send to the server. */
  datatype Request =
    | SigninRequest(email: string, password: string)
    | SignupRequest(name: string, email: string, phone: string, address: string,
                    city: string, state: string, pincode: string, password: string)

  /** What comes back: a success with the session data, a refusal with the
      server's error field (absent or empty when it has none), or no answer. */
  datatype Answer = Success(data: SessionData) | Refused(error: Option<string>) | NetworkError

  /** `data.error || fallback`: an absent or empty error gives the fallback. */
  function ErrorText(error: Option<string>, fallback: string): (text: string)
    ensures error.Some? && error.value != "" ==> text == error.value
    ensures error.None? || error.value == "" ==> text == fallback
  {
    if error.Some? && error.value != "" then error.value else fallback
  }

  const NetworkAlert: string := "Network error. Please try again."

  /** A page carrying the forms: its local storage, the alerts raised, the
      requests sent and the address the browser was sent to. */
  class AuthPage {
    var storage: map<string, string>
    var alerts: seq<string>
    var requests: seq<Request>
    var location: string

    constructor (storage: map<string, string>)
      ensures this.storage == storage && alerts == [] && requests == [] && location == ""
    {
      this.storage := storage;
      alerts := [];
      requests := [];
      location := "";
    }

    /** The outcome of a sent request: on success the session is stored and
        the browser goes to the dashboard; otherwise one alert and nothing
        stored. */
    method HandleAnswer(answer: Answer, successAlert: string, failureFallback: string)
      modifies this
      ensures requests == old(requests)
      ensures answer.Success? ==>
        storage == StoreSession(old(storage), answer.data)
        && alerts == old(alerts) + [successAlert] && location == "dashboard.html"
      ensures answer.Refused? ==>
        storage == old(storage) && location == old(location)
        && alerts == old(alerts) + [ErrorText(answer.error, failureFallback)]
      ensures answer.NetworkError? ==>
        storage == old(storage) && location == old(location)
        && alerts == old(alerts) + [NetworkAlert]
    {
      match answer
      case Success(data) =>
        storage := StoreSession(storage, data);
        alerts := alerts + [successAlert];
        location := "dashboard.html";
      case Refused(error) =>
        alerts := alerts + [ErrorText(error, failureFallback)];
      case NetworkError =>
        alerts := alerts + [NetworkAlert];
    }

    /** The sign-in form: with either field empty only an alert is raised and
        no request is sent; otherwise one request goes out and its answer is
        handled. */
    method SubmitSignin(email: string, password: string, answer: Answer)
      modifies this
      ensures email == "" || password == "" ==>
        storage == old(storage) && requests == old(requests) && location == old(location)
        && alerts == old(alerts) + ["Please enter both email and password"]
      ensures email != "" && password != "" ==>
        requests == old(requests) + [SigninRequest(email, password)]
      ensures email != "" && password != "" && answer.Success? ==>
        storage == StoreSession(old(storage), answer.data) && LoggedIn(storage)
        && alerts == old(alerts) + ["Login successful!"] && location == "dashboard.html"
      ensures email != "" && password != "" && answer.Refused? ==>
        storage == old(storage) && location == old(location)
        && alerts == old(alerts) + [ErrorText(answer.error, "Login failed")]
      ensures email != "" && password != "" && answer.NetworkError? ==>
        storage == old(storage) && location == old(location) && alerts == old(alerts) + [NetworkAlert]
    {
      if email == "" || password == "" {
        alerts := alerts + ["Please enter both email and password"];
        return;
      }
      requests := requests + [SigninRequest(email, password)];
      HandleAnswer(answer, "Login successful!", "Login failed");
    }

    /** The sign-up form: differing passwords or a pincode that is not six
        digits raise an alert and send nothing; otherwise the eight fields go
        out (the confirmation is not sent) and the answer is handled. */
    method SubmitSignup(name: string, email: string, phone: string, address: string,
                        city: string, state: string, pincode: string,
                        password: string, confirmPassword: string, answer: Answer)
      modifies this
      ensures CheckSignup(password, confirmPassword, pincode) == PasswordsDiffer ==>
        storage == old(storage) && requests == old(requests) && location == old(location)
        && alerts == old(alerts) + ["Passwords do not match"]
      ensures CheckSignup(password, confirmPassword, pincode) == BadPincode ==>
        storage == old(storage) && requests == old(requests) && location == old(location)
        && alerts == old(alerts) + ["Please enter a valid 6-digit pincode"]
      ensures CheckSignup(password, confirmPassword, pincode) == SignupReady ==>
        requests == old(requests) + [SignupRequest(name, email, phone, address, city, state, pincode, password)]
      ensures CheckSignup(password, confirmPassword, pincode) == SignupReady && answer.Success? ==>
        storage == StoreSession(old(storage), answer.data)
        && alerts == old(alerts) + ["Account created successfully!"] && location == "dashboard.html"
      ensures CheckSignup(password, confirmPassword, pincode) == SignupReady && answer.Refused? ==>
        storage == old(storage) && location == old(location)
        && alerts == old(alerts) + [ErrorText(answer.error, "Registration failed")]
      ensures CheckSignup(password, confirmPassword, pincode) == SignupReady && answer.NetworkError? ==>
        storage == old(storage) && location == old(location) && alerts == old(alerts) + [NetworkAlert]
    {
      if password != confirmPassword {
        alerts := alerts + ["Passwords do not match"];
        return;
      }
      if !ValidPincode(pincode) {
        alerts := alerts + ["Please enter a valid 6-digit pincode"];
        return;
      }
      requests := requests + [SignupRequest(name, email, phone, address, city, state, pincode, password)];
      HandleAnswer(answer, "Account created successfully!", "Registration failed");
    }

    /** The logout button: the five session keys are removed, nothing else
        in storage changes, and the browser goes to the home page. */
    method Logout()
      modifies this
      ensures storage == ClearSession(old(storage)) && !LoggedIn(storage)
      ensures alerts == old(alerts) + ["You have been logged out successfully"]
      ensures location == "index.html" && requests == old(requests)
    {
      storage := ClearSession(storage);
      alerts := alerts + ["You have been logged out successfully"];
      location := "index.html";
    }
  }
}
