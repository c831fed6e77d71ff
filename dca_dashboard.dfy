/** The DCA agent's dashboard (frontend/pages/dcadashboard.tsx): the cases assigned
    to the agency, a priority filter, and a role check that sends non-agents away. */
module DcaDashboard {
  import opened Wrappers
  import opened Session
  import opened CaseList

  /** A case as the DCA page holds it; here the probability is always present. */
  datatype AssignedCase = AssignedCase(
    id: int,
    amount: real,
    daysOverdue: int,
    aiPriority: string,
    recoveryProbability: real)

  const DCA_CASES_URL := "http://localhost:5000/api/dca/cases"

  const DCA_ROLE := "dca"

  /** The list `useMockData` installs when the backend gives nothing usable. */
  const MOCK_ASSIGNED_CASES: seq<AssignedCase> := [
    AssignedCase(101, 15000.0, 120, "High", 0.85),
    AssignedCase(104, 18500.0, 95, "High", 0.78),
    AssignedCase(108, 16500.0, 105, "High", 0.88),
    AssignedCase(102, 8500.0, 45, "Medium", 0.62),
    AssignedCase(106, 9500.0, 60, "Medium", 0.55),
    AssignedCase(103, 22000.0, 15, "Low", 0.34),
    AssignedCase(107, 28000.0, 10, "Low", 0.28)
  ]

  function AiPriority(c: AssignedCase): string {
    c.aiPriority
  }

  function Id(c: AssignedCase): int {
    c.id
  }

  /** On the mock list, filter "High" shows cases 101, 104 and 108 in that order;
      the list has seven cases. */
  lemma MockAssignedCasesFacts()
    ensures |MOCK_ASSIGNED_CASES| == 7
    ensures Ids(ByPriority(MOCK_ASSIGNED_CASES, AiPriority, "High"), Id) == [101, 104, 108]
  {
    var m := MOCK_ASSIGNED_CASES;
    var high := [m[0], m[1], m[2]];
    assert ByPriority(m, AiPriority, "High") == high by {
      assert Seqs.IsSubsequence(high[..1], m[..1]);
      assert high[..2][..1] == high[..1] && m[..2][..1] == m[..1];
      assert Seqs.IsSubsequence(high[..2], m[..2]);
      assert high[..3][..2] == high[..2] && m[..3][..2] == m[..2];
      assert Seqs.IsSubsequence(high, m[..3]);
      assert m[..4][..3] == m[..3];
      assert Seqs.IsSubsequence(high, m[..4]);
      assert m[..5][..4] == m[..4];
      assert Seqs.IsSubsequence(high, m[..5]);
      assert m[..6][..5] == m[..5];
      assert Seqs.IsSubsequence(high, m[..6]);
      assert m[..7] == m && m[..7][..6] == m[..6];
      assert Seqs.IsSubsequence(high, m);
      assert PriorityPositions(m, AiPriority, "High") == {0, 1, 2};
      ByPriorityUnique(m, AiPriority, "High", high);
    }
  }

  /** The DCA page's state, as for the admin page. */
  class DcaPage {
    var session: Store
    var user: Option<User>
    var cases: seq<AssignedCase>
    var loading: bool
    var priorityFilter: string
    var navigatedTo: Option<string>
    var requests: seq<Request>

    /** The page as first rendered: no user, no cases, loading, filter "All". */
    constructor (store: Store)
      ensures session == store && user == None && cases == [] && loading
      ensures priorityFilter == ALL && navigatedTo == None && requests == []
    {
      session := store;
      user := None;
      cases := [];
      loading := true;
      priorityFilter := ALL;
      navigatedTo := None;
      requests := [];
    }

    /** `fetchAssignedCases`: one GET with the stored token, then the reply's list or
      the mock list; `loading` is cleared on every path. */
    method FetchAssignedCases(network: FetchResult<AssignedCase>)
      modifies this`cases, this`loading, this`requests
      ensures requests == old(requests) + [GetCases(DCA_CASES_URL, GetItem(session, TOKEN_KEY))]
      ensures cases == Classify(network, MOCK_ASSIGNED_CASES).cases
      ensures !loading
    {
      var token := GetItem(session, TOKEN_KEY);
      requests := requests + [GetCases(DCA_CASES_URL, token)];
      match network {
        case Ok(success, data) =>
          if success && data.Some? {
            cases := data.value;
          } else {
            cases := MOCK_ASSIGNED_CASES;
          }
        case NotOk =>
          cases := MOCK_ASSIGNED_CASES;
        case Throws =>
          cases := MOCK_ASSIGNED_CASES;
      }
      loading := false;
    }

    /** The mount effect: the session guard, then `setUser(parsedUser)`, then the role
      check, which sends every role other than "dca" (an absent one included) to the
      admin dashboard without fetching; a DCA user gets the assigned cases. */
    method Mount(network: FetchResult<AssignedCase>) returns (threw: bool)
      modifies this
      ensures session == old(session) && priorityFilter == old(priorityFilter)
      ensures threw <==> CheckSession(session).ParseThrows?
      ensures CheckSession(session).RedirectToLogin? ==>
        navigatedTo == Some(LOGIN_ROUTE) && requests == old(requests) &&
        user == old(user) && cases == old(cases) && loading == old(loading)
      ensures CheckSession(session).ParseThrows? ==>
        navigatedTo == old(navigatedTo) && requests == old(requests) &&
        user == old(user) && cases == old(cases) && loading == old(loading)
      ensures CheckSession(session).Admitted? ==> user == Some(CheckSession(session).user)
      ensures CheckSession(session).Admitted? && CheckSession(session).user.role != Some(DCA_ROLE) ==>
        navigatedTo == Some(ADMIN_ROUTE) && requests == old(requests) &&
        cases == old(cases) && loading == old(loading)
      ensures CheckSession(session).Admitted? && CheckSession(session).user.role == Some(DCA_ROLE) ==>
        navigatedTo == old(navigatedTo) &&
        requests == old(requests) + [GetCases(DCA_CASES_URL, GetItem(session, TOKEN_KEY))] &&
        cases == Classify(network, MOCK_ASSIGNED_CASES).cases && !loading
    {
      threw := false;
      var token := GetItem(session, TOKEN_KEY);
      var userData := GetItem(session, USER_KEY);
      if !Truthy(token) || !Truthy(userData) {
        navigatedTo := Some(LOGIN_ROUTE);
        return;
      }
      var parsed := ParseUser(userData.value);
      if parsed.None? {
        threw := true;
        return;
      }
      var parsedUser := parsed.value;
      user := Some(parsedUser);
      if parsedUser.role != Some(DCA_ROLE) {
        navigatedTo := Some(ADMIN_ROUTE);
        return;
      }
      FetchAssignedCases(network);
    }

    /** `handleLogout`: both keys removed, every other key kept, then the login page. */
    method HandleLogout()
      modifies this`session, this`navigatedTo
      ensures session == ClearSession(old(session))
      ensures navigatedTo == Some(LOGIN_ROUTE)
    {
      session := session - {TOKEN_KEY};
      session := session - {USER_KEY};
      navigatedTo := Some(LOGIN_ROUTE);
    }

    /** The filter control's `onChange`: only the selection changes. */
    method SetPriorityFilter(value: string)
      modifies this`priorityFilter
      ensures priorityFilter == value
    {
      priorityFilter := value;
    }

    /** The rows the table shows: `filteredCases`, the shared priority filter; all
      held cases under "All", otherwise those of the selected priority, in order. */
    function Displayed(): (shown: seq<AssignedCase>)
      reads this
      ensures priorityFilter == ALL ==> shown == cases
      ensures priorityFilter != ALL ==> forall k :: 0 <= k < |shown| ==> shown[k].aiPriority == priorityFilter
      ensures priorityFilter != ALL ==> |shown| == |PriorityPositions(cases, AiPriority, priorityFilter)|
      ensures Seqs.IsSubsequence(shown, cases)
    {
      ByPriority(cases, AiPriority, priorityFilter)
    }
  }
}
