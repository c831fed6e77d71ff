/** The browser's local storage as the pages use it: a string-keyed store holding an
    authentication token under "token" and a serialized user record under "user";
    plus the routes the pages navigate to and the requests they send. */
module Session {
  import opened Wrappers

  const TOKEN_KEY := "token"
  const USER_KEY := "user"

  const LOGIN_ROUTE := "/login"
  const ADMIN_ROUTE := "/admin-dashboard"
  const DCA_ROUTE := "/dca-dashboard"

  /** The user record the pages keep; `role` is optional. */
  datatype User = User(username: string, role: Option<string>)

  /** A stored value. `UserJson(u)` stands for the text `JSON.stringify(u)`, which
      `JSON.parse` turns back into `u`; `Plain(s)` is a text that is not JSON, such as
      a demo token or the "undefined" that `setItem` stores for an undefined value. */
  datatype Entry = Plain(text: string) | UserJson(user: User)

  type Store = map<string, Entry>

  /** `localStorage.getItem(key)`: `None` is JavaScript's `null`. */
  function GetItem(store: Store, key: string): (e: Option<Entry>)
    ensures e.Some? <==> key in store
    ensures e.Some? ==> e.value == store[key]
  {
    if key in store then Some(store[key]) else None
  }

  /** The truth value of a `getItem` result in a condition: `null` and the empty
      string are false; every other string, including every JSON text, is true. */
  predicate Truthy(e: Option<Entry>)
    ensures Truthy(e) <==> e != None && e != Some(Plain(""))
  {
    match e
    case None => false
    case Some(Plain(s)) => s != ""
    case Some(UserJson(_)) => true
  }

  /** `JSON.parse` of a stored user: the record, or `None` when the text is not JSON
      and the call throws. */
  function ParseUser(e: Entry): (u: Option<User>)
    ensures u.Some? <==> e.UserJson?
    ensures e.UserJson? ==> u == Some(e.user)
  {
    match e
    case UserJson(user) => Some(user)
    case Plain(_) => None
  }

  /** The store after `removeItem('token')` and `removeItem('user')`. */
  function ClearSession(store: Store): (r: Store)
    ensures TOKEN_KEY !in r && USER_KEY !in r
    ensures r.Keys == store.Keys - {TOKEN_KEY, USER_KEY}
    ensures forall k :: k in r ==> r[k] == store[k]
  {
    store - {TOKEN_KEY, USER_KEY}
  }

  /** A network call a page makes. `GetCases` carries the endpoint and the token
      read from storage for the `Authorization: Bearer …` header. */
  datatype Request =
    | GetCases(url: string, token: Option<Entry>)
    | PostLogin(username: string, password: string)

  /** What a dashboard's mount effect does with the session it finds. */
  datatype Guard =
    | RedirectToLogin           // token or user missing (or empty)
    | ParseThrows               // the stored user is not JSON for a user record
    | Admitted(user: User)      // the page may load its cases

  /** The guard both dashboards run first (admindashboard.tsx and dcadashboard.tsx). */
  function CheckSession(store: Store): (g: Guard)
    ensures g.RedirectToLogin? <==> !Truthy(GetItem(store, TOKEN_KEY)) || !Truthy(GetItem(store, USER_KEY))
    ensures g.ParseThrows? <==> !g.RedirectToLogin? && store[USER_KEY].Plain?
    ensures g.Admitted? ==> store[USER_KEY] == UserJson(g.user)
  {
    var token := GetItem(store, TOKEN_KEY);
    var userData := GetItem(store, USER_KEY);
    if !Truthy(token) || !Truthy(userData) then RedirectToLogin
    else match ParseUser(userData.value)
      case None => ParseThrows
      case Some(u) => Admitted(u)
  }

  /** Logging out always sends the next dashboard mount back to the login page. */
  lemma ClearedSessionRedirects(store: Store)
    ensures CheckSession(ClearSession(store)) == RedirectToLogin
  {
  }
}
