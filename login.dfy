/** The login page (frontend/pages/login.tsx): a two-field form whose submission runs,
    in order, field validation, two hardcoded bypass accounts, and a call to the
    authentication endpoint. */
module Login {
  import opened Wrappers
  import opened Session
  import Text

  datatype Field = Username | Password

  /** The JSON body of a login reply; a missing property is `None`. */
  datatype LoginBody = LoginBody(token: Option<string>, user: Option<User>, message: Option<string>)

  /** What `fetch('/api/login', …)` followed by `response.json()` gives: an exception
      (network error or a body that is not JSON), or a reply with its `ok` flag. */
  datatype LoginResponse = Throws | Reply(ok: bool, body: LoginBody)

  const LOGIN_URL := "/api/login"
  const MISSING_FIELDS := "Please enter both username and password"
  const LOGIN_FAILED := "Login failed. Please check your credentials."
  const CREDENTIALS_HINT := "Invalid credentials. Admin: admin/admin123 | DCA: dca/dca123"

  /** `'demo-token-' + Date.now()`, with the clock reading passed in. */
  function DemoToken(now: nat): (token: string)
    ensures |token| > 0
  {
    "demo-token-" + Text.NatToDecimal(now)
  }

  /** Bypass logins at different instants get different tokens. */
  lemma DemoTokenInjective(a: nat, b: nat)
    requires DemoToken(a) == DemoToken(b)
    ensures a == b
  {
    var prefix := "demo-token-";
    assert Text.NatToDecimal(a) == DemoToken(a)[|prefix|..];
    assert Text.NatToDecimal(b) == DemoToken(b)[|prefix|..];
    Text.NatToDecimalInjective(a, b);
  }

  /** `localStorage.setItem(key, value)` stores `String(value)`: an undefined token
      becomes the text "undefined". */
  function StoredToken(token: Option<string>): (e: Entry)
    ensures token.Some? ==> e == Plain(token.value)
    ensures token.None? ==> e == Plain("undefined")
  {
    Plain(token.GetOr("undefined"))
  }

  /** `JSON.stringify(data.user)` as stored: a user record, or "undefined" when the
      reply has no user. */
  function StoredUser(user: Option<User>): (e: Entry)
    ensures user.Some? ==> e == UserJson(user.value)
    ensures user.None? ==> e == Plain("undefined")
  {
    match user
    case Some(u) => UserJson(u)
    case None => Plain("undefined")
  }

  /** `data.message || 'Login failed. …'`: an absent or empty message gives the fallback. */
  function RejectionMessage(message: Option<string>): (text: string)
    ensures message.Some? && message.value != "" ==> text == message.value
    ensures message.None? || message.value == "" ==> text == LOGIN_FAILED
    ensures text != ""
  {
    if message.Some? && message.value != "" then message.value else LOGIN_FAILED
  }

  /** The route of the dashboard for a role: "dca" gets the DCA view, every other
      role, and no role, the admin view. */
  function DashboardFor(role: Option<string>): (route: string)
    ensures route == DCA_ROUTE <==> role == Some("dca")
    ensures route == ADMIN_ROUTE <==> role != Some("dca")
  {
    if role == Some("dca") then DCA_ROUTE else ADMIN_ROUTE
  }

  predicate IsAdminBypass(username: string, password: string) {
    username == "admin" && password == "admin123"
  }

  predicate IsDcaBypass(username: string, password: string) {
    username == "dca" && password == "dca123"
  }

  /** Everything a submission changes: the error text shown, the store, the route it
      navigates to (`None`: no navigation) and the request it sends (`None`: none). */
  datatype Outcome = Outcome(error: string, session: Store, navigatedTo: Option<string>, request: Option<Request>)

  /** The store after a sign-in as `user` with `token`. */
  function SignedIn(store: Store, token: Entry, user: Entry): (r: Store)
    ensures r.Keys == store.Keys + {TOKEN_KEY, USER_KEY}
    ensures r[TOKEN_KEY] == token && r[USER_KEY] == user
    ensures forall k :: k in store && k != TOKEN_KEY && k != USER_KEY ==> r[k] == store[k]
  {
    store[TOKEN_KEY := token][USER_KEY := user]
  }

  /** `handleSubmit` on the form's values, the store it finds, the clock and the
      login endpoint's answer (consulted only when the request is sent). Whenever it
      navigates, the error is empty, a user record is stored, and the route is the DCA
      view exactly when that record's role is "dca". A request is sent exactly when
      both fields are filled and neither bypass account matches. */
  function Submit(username: string, password: string, session: Store, now: nat, response: LoginResponse): (o: Outcome)
    ensures o.request.Some? <==>
      username != "" && password != "" && !IsAdminBypass(username, password) && !IsDcaBypass(username, password)
    ensures o.request.Some? ==> o.request.value == PostLogin(username, password)
    ensures o.navigatedTo.Some? ==>
      o.error == "" && USER_KEY in o.session && o.session[USER_KEY].UserJson? &&
      o.navigatedTo.value == DashboardFor(o.session[USER_KEY].user.role)
    ensures o.navigatedTo.None? ==> o.error != ""
    ensures o.session != session ==> TOKEN_KEY in o.session && USER_KEY in o.session
  {
    if username == "" || password == "" then
      Outcome(MISSING_FIELDS, session, None, None)
    else if IsAdminBypass(username, password) then
      Outcome("", SignedIn(session, Plain(DemoToken(now)), UserJson(User(username, Some("admin")))),
              Some(ADMIN_ROUTE), None)
    else if IsDcaBypass(username, password) then
      Outcome("", SignedIn(session, Plain(DemoToken(now)), UserJson(User(username, Some("dca")))),
              Some(DCA_ROUTE), None)
    else
      var request := Some(PostLogin(username, password));
      match response
      case Throws =>
        Outcome(CREDENTIALS_HINT, session, None, request)
      case Reply(ok, body) =>
        if ok then
          var written := SignedIn(session, StoredToken(body.token), StoredUser(body.user));
          match body.user
          // `data.user.role` on an undefined user throws a TypeError, caught below
          // the two writes that already happened
          case None => Outcome(CREDENTIALS_HINT, written, None, request)
          case Some(u) => Outcome("", written, Some(DashboardFor(u.role)), request)
        else
          Outcome(RejectionMessage(body.message), session, None, request)
  }

  /** Validation comes first: an empty field shows the missing-fields message, writes
      nothing, navigates nowhere and sends nothing, whatever the server would say. */
  lemma SubmitMissingFields(username: string, password: string, session: Store, now: nat, response: LoginResponse)
    requires username == "" || password == ""
    ensures Submit(username, password, session, now, response) == Outcome(MISSING_FIELDS, session, None, None)
  {
  }

  /** admin/admin123 signs in as role "admin" with a demo token and goes to the admin
      view, without a request, whatever the server would say. */
  lemma SubmitAdminBypass(session: Store, now: nat, response: LoginResponse)
    ensures Submit("admin", "admin123", session, now, response) ==
      Outcome("", SignedIn(session, Plain(DemoToken(now)), UserJson(User("admin", Some("admin")))),
              Some(ADMIN_ROUTE), None)
  {
  }

  /** dca/dca123 signs in as role "dca" and goes to the DCA view, without a request. */
  lemma SubmitDcaBypass(session: Store, now: nat, response: LoginResponse)
    ensures Submit("dca", "dca123", session, now, response) ==
      Outcome("", SignedIn(session, Plain(DemoToken(now)), UserJson(User("dca", Some("dca")))),
              Some(DCA_ROUTE), None)
  {
  }

  /** An ok reply with a user stores its token and user as given and routes by role. */
  lemma SubmitAccepted(username: string, password: string, session: Store, now: nat, body: LoginBody)
    requires username != "" && password != ""
    requires !IsAdminBypass(username, password) && !IsDcaBypass(username, password)
    requires body.user.Some?
    ensures var o := Submit(username, password, session, now, Reply(true, body));
      o.error == "" &&
      o.session == SignedIn(session, StoredToken(body.token), UserJson(body.user.value)) &&
      o.navigatedTo == Some(DashboardFor(body.user.value.role)) &&
      o.request == Some(PostLogin(username, password))
  {
  }

  /** A refusal shows the server's message or the generic one and keeps the store. */
  lemma SubmitRejected(username: string, password: string, session: Store, now: nat, body: LoginBody)
    requires username != "" && password != ""
    requires !IsAdminBypass(username, password) && !IsDcaBypass(username, password)
    ensures var o := Submit(username, password, session, now, Reply(false, body));
      o == Outcome(RejectionMessage(body.message), session, None, Some(PostLogin(username, password)))
  {
  }

  /** An exception shows the fixed hint naming the two bypass accounts. */
  lemma SubmitThrows(username: string, password: string, session: Store, now: nat)
    requires username != "" && password != ""
    requires !IsAdminBypass(username, password) && !IsDcaBypass(username, password)
    ensures Submit(username, password, session, now, Throws) ==
      Outcome(CREDENTIALS_HINT, session, None, Some(PostLogin(username, password)))
  {
  }

  /** The login page's state: the form, the error text, the loading flag, and the
      store, route and requests it affects. */
  class LoginPage {
    var username: string
    var password: string
    var error: string
    var loading: bool
    var session: Store
    var navigatedTo: Option<string>
    var requests: seq<Request>

    /** The empty form. */
    constructor (store: Store)
      ensures username == "" && password == "" && error == "" && !loading
      ensures session == store && navigatedTo == None && requests == []
    {
      username := "";
      password := "";
      error := "";
      loading := false;
      session := store;
      navigatedTo := None;
      requests := [];
    }

    /** `handleChange`: the named field takes the typed value, the other keeps its
      value, and the error is cleared. */
    method HandleChange(field: Field, value: string)
      modifies this`username, this`password, this`error
      ensures field == Username ==> username == value && password == old(password)
      ensures field == Password ==> password == value && username == old(username)
      ensures error == ""
    {
      match field {
        case Username => username := value;
        case Password => password := value;
      }
      error := "";
    }

    /** `handleSubmit`: the page ends up as `Submit` says, and not loading. */
    method HandleSubmit(now: nat, response: LoginResponse)
      modifies this`error, this`loading, this`session, this`navigatedTo, this`requests
      ensures var o := Submit(username, password, old(session), now, response);
        error == o.error && session == o.session &&
        navigatedTo == (if o.navigatedTo.Some? then o.navigatedTo else old(navigatedTo)) &&
        requests == old(requests) + (if o.request.Some? then [o.request.value] else [])
      ensures !loading
    {
      error := "";
      loading := true;

      if username == "" || password == "" {
        error := MISSING_FIELDS;
        loading := false;
        return;
      }

      if username == "admin" && password == "admin123" {
        session := session[TOKEN_KEY := Plain(DemoToken(now))];
        session := session[USER_KEY := UserJson(User(username, Some("admin")))];
        navigatedTo := Some(ADMIN_ROUTE);
        loading := false;
        return;
      }

      if username == "dca" && password == "dca123" {
        session := session[TOKEN_KEY := Plain(DemoToken(now))];
        session := session[USER_KEY := UserJson(User(username, Some("dca")))];
        navigatedTo := Some(DCA_ROUTE);
        loading := false;
        return;
      }

      requests := requests + [PostLogin(username, password)];
      match response {
        case Throws =>
          error := CREDENTIALS_HINT;
        case Reply(ok, body) =>
          if ok {
            session := session[TOKEN_KEY := StoredToken(body.token)];
            session := session[USER_KEY := StoredUser(body.user)];
            match body.user {
              case None =>
                error := CREDENTIALS_HINT;
              case Some(u) =>
                if u.role == Some("dca") {
                  navigatedTo := Some(DCA_ROUTE);
                } else {
                  navigatedTo := Some(ADMIN_ROUTE);
                }
            }
          } else {
            error := RejectionMessage(body.message);
          }
      }
      loading := false;
    }
  }
}
