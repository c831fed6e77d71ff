/** How the pages fit together: what a login leaves in storage decides what the
    dashboard it navigates to does when it mounts. */
module Flows {
  import opened Wrappers
  import opened Session
  import opened CaseList
  import Login
  import AdminDashboard
  import DcaDashboard

  /** After either bypass login, whatever was stored before, the dashboard guard admits
      the bypass user. */
  lemma BypassLoginIsAdmitted(session: Store, now: nat, response: Login.LoginResponse)
    ensures CheckSession(Login.Submit("admin", "admin123", session, now, response).session)
         == Admitted(User("admin", Some("admin")))
    ensures CheckSession(Login.Submit("dca", "dca123", session, now, response).session)
         == Admitted(User("dca", Some("dca")))
  {
    Login.SubmitAdminBypass(session, now, response);
    Login.SubmitDcaBypass(session, now, response);
  }

  /** An accepted server login with a non-empty token (or none, which is stored as
      "undefined") is admitted as the user the server sent; an empty token is stored
      too, but sends the dashboard straight back to the login page. */
  lemma ServerLoginGuard(username: string, password: string, session: Store, now: nat, body: Login.LoginBody)
    requires username != "" && password != ""
    requires !Login.IsAdminBypass(username, password) && !Login.IsDcaBypass(username, password)
    requires body.user.Some?
    ensures var o := Login.Submit(username, password, session, now, Login.Reply(true, body));
      body.token != Some("") ==> CheckSession(o.session) == Admitted(body.user.value)
    ensures var o := Login.Submit(username, password, session, now, Login.Reply(true, body));
      body.token == Some("") ==> o.navigatedTo.Some? && CheckSession(o.session) == RedirectToLogin
  {
    Login.SubmitAccepted(username, password, session, now, body);
  }

  /** The route the login picks agrees with the DCA page's role check: a user the
      login sends to the DCA view and the guard admits has role "dca", so that page
      fetches instead of redirecting; one sent to the admin view does not. */
  lemma LoginRouteAgreesWithRoleCheck(username: string, password: string, session: Store, now: nat,
                                      response: Login.LoginResponse)
    ensures var o := Login.Submit(username, password, session, now, response);
      o.navigatedTo.Some? && CheckSession(o.session).Admitted? ==>
        (o.navigatedTo.value == DCA_ROUTE <==> CheckSession(o.session).user.role == Some(DcaDashboard.DCA_ROLE))
  {
  }

  /** With the backend down, an admin bypass login followed by the admin dashboard
      shows the eight mock cases, three of them high priority; the one request sent
      carries the demo token. */
  method OfflineAdminSession(now: nat) returns (shown: nat, highPriority: nat, requests: seq<Request>)
    ensures shown == 8 && highPriority == 3
    ensures requests == [GetCases(AdminDashboard.ADMIN_CASES_URL, Some(Plain(Login.DemoToken(now))))]
  {
    var login := new Login.LoginPage(map[]);
    login.HandleChange(Login.Username, "admin");
    login.HandleChange(Login.Password, "admin123");
    login.HandleSubmit(now, Login.Throws);
    assert login.navigatedTo == Some(ADMIN_ROUTE);

    var page := new AdminDashboard.AdminPage(login.session);
    var threw := page.Mount(Throws);
    assert page.cases == AdminDashboard.MOCK_CASES;
    AdminDashboard.MockCasesFacts();
    shown := |page.Displayed()|;
    highPriority := AdminDashboard.HighPriorityCount(page.cases);
    requests := page.requests;
  }

  /** With the backend down, a DCA bypass login followed by the DCA dashboard shows
      the seven mock cases; choosing "High" leaves cases 101, 104 and 108. */
  method OfflineDcaSession(now: nat) returns (shown: nat, high: seq<int>)
    ensures shown == 7
    ensures high == [101, 104, 108]
  {
    var login := new Login.LoginPage(map[]);
    login.HandleChange(Login.Username, "dca");
    login.HandleChange(Login.Password, "dca123");
    login.HandleSubmit(now, Login.Throws);

    var page := new DcaDashboard.DcaPage(login.session);
    var threw := page.Mount(Throws);
    DcaDashboard.MockAssignedCasesFacts();
    shown := |page.Displayed()|;
    page.SetPriorityFilter("High");
    high := Ids(page.Displayed(), DcaDashboard.Id);
  }

  /** An admin who opens the DCA dashboard is sent to the admin view without fetching. */
  method AdminOnDcaPage(now: nat, network: FetchResult<DcaDashboard.AssignedCase>)
    returns (route: Option<string>, requests: seq<Request>)
    ensures route == Some(ADMIN_ROUTE) && requests == []
  {
    var login := new Login.LoginPage(map[]);
    login.HandleChange(Login.Username, "admin");
    login.HandleChange(Login.Password, "admin123");
    login.HandleSubmit(now, Login.Throws);

    var page := new DcaDashboard.DcaPage(login.session);
    var threw := page.Mount(network);
    route := page.navigatedTo;
    requests := page.requests;
  }

  /** After logout, mounting the dashboard again redirects to the login page. */
  method LogoutThenRemount(store: Store, network: FetchResult<AdminDashboard.DebtCase>)
    returns (route: Option<string>, requests: seq<Request>)
    ensures route == Some(LOGIN_ROUTE) && requests == []
  {
    var page := new AdminDashboard.AdminPage(store);
    page.HandleLogout();
    ClearedSessionRedirects(store);
    var again := new AdminDashboard.AdminPage(page.session);
    var threw := again.Mount(network);
    route := again.navigatedTo;
    requests := again.requests;
  }
}
