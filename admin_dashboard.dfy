/** The admin dashboard (frontend/pages/admindashboard.tsx): every case, KPI cards
    computed over the whole list, a priority filter, and a recovery-status badge. */
module AdminDashboard {
  import opened Wrappers
  import opened Session
  import opened CaseList

  /** A case as the admin page holds it; `recoveryProbability` may be absent. */
  datatype DebtCase = DebtCase(
    id: int,
    debtorName: string,
    amount: real,
    status: string,
    recoveryProbability: Option<real>,
    aiPriority: string,
    daysOverdue: int)

  const ADMIN_CASES_URL := "http://localhost:5000/api/admin/cases"

  /** The list `useMockData` installs when the backend gives nothing usable. */
  const MOCK_CASES: seq<DebtCase> := [
    DebtCase(1, "John Smith", 15000.0, "active", Some(0.85), "High", 120),
    DebtCase(2, "Sarah Johnson", 8500.0, "active", Some(0.62), "Medium", 45),
    DebtCase(3, "Michael Brown", 22000.0, "active", Some(0.34), "Low", 15),
    DebtCase(4, "Emily Davis", 18500.0, "active", Some(0.78), "High", 95),
    DebtCase(5, "David Wilson", 12000.0, "resolved", Some(0.92), "Medium", 30),
    DebtCase(6, "Lisa Martinez", 9500.0, "active", Some(0.55), "Medium", 60),
    DebtCase(7, "James Anderson", 28000.0, "active", Some(0.28), "Low", 10),
    DebtCase(8, "Jessica Taylor", 16500.0, "active", Some(0.88), "High", 105)
  ]

  function AiPriority(c: DebtCase): string {
    c.aiPriority
  }

  /** `filteredCases`: every case under "All", otherwise exactly the cases whose
      `ai_priority` is the selected value, in their original order. */
  function FilteredCases(cases: seq<DebtCase>, filter: string): (r: seq<DebtCase>)
    ensures filter == ALL ==> r == cases
    ensures filter != ALL ==> forall k :: 0 <= k < |r| ==> r[k].aiPriority == filter
    ensures filter != ALL ==> |r| == |PriorityPositions(cases, AiPriority, filter)|
    ensures Seqs.IsSubsequence(r, cases)
    ensures |r| <= |cases|
  {
    ByPriority(cases, AiPriority, filter)
  }

  /** Under a specific filter the table shows no other list: any subsequence of the
      held cases that has only the selected priority, and as many cases as there are
      of it, is the filtered list. */
  lemma FilteredCasesUnique(cases: seq<DebtCase>, filter: string, r: seq<DebtCase>)
    requires filter != ALL
    requires Seqs.IsSubsequence(r, cases)
    requires forall k :: 0 <= k < |r| ==> r[k].aiPriority == filter
    requires |r| == |PriorityPositions(cases, AiPriority, filter)|
    ensures r == FilteredCases(cases, filter)
  {
    ByPriorityUnique(cases, AiPriority, filter, r);
  }

  /** The KPI "High Recovery Priority": the number of held cases whose priority is "High". */
  function HighPriorityCount(cases: seq<DebtCase>): (n: nat)
    ensures n == |PriorityPositions(cases, AiPriority, "High")|
    ensures n <= |cases|
  {
    |FilteredCases(cases, "High")|
  }

  predicate IsAtRisk(c: DebtCase) {
    c.daysOverdue > 90
  }

  /** The KPI "Cases at Risk (90+ days)": cases more than 90 days overdue. */
  function CasesAtRisk(cases: seq<DebtCase>): (n: nat)
    ensures n == |Seqs.MatchSet(cases, IsAtRisk)|
    ensures n <= |cases|
  {
    Seqs.FilterCount(cases, IsAtRisk);
    |Seqs.Filter(cases, IsAtRisk)|
  }

  /** One more case adds one to the at-risk count exactly when it is over 90 days
      overdue: a case at exactly 90 days is not at risk. */
  lemma CasesAtRiskSnoc(cases: seq<DebtCase>, c: DebtCase)
    ensures CasesAtRisk(cases + [c]) == CasesAtRisk(cases) + (if c.daysOverdue > 90 then 1 else 0)
  {
    Seqs.CountWhereSnoc(cases, c, IsAtRisk);
  }

  /** `c.recovery_probability || 0`: a missing probability counts as 0. */
  function ProbabilityOrZero(c: DebtCase): (p: real)
    ensures c.recoveryProbability.Some? ==> p == c.recoveryProbability.value
    ensures c.recoveryProbability.None? ==> p == 0.0
  {
    c.recoveryProbability.GetOr(0.0)
  }

  ghost predicate ProbabilitiesInRange(cases: seq<DebtCase>) {
    forall k :: 0 <= k < |cases| && cases[k].recoveryProbability.Some? ==>
      0.0 <= cases[k].recoveryProbability.value <= 1.0
  }

  /** `cases.reduce((sum, c) => sum + (c.recovery_probability || 0), 0)`, folded from
      the left. With probabilities in [0, 1] it lies between 0 and the number of cases. */
  function SumProbability(cases: seq<DebtCase>): (s: real)
    ensures ProbabilitiesInRange(cases) ==> 0.0 <= s <= |cases| as real
    decreases |cases|
  {
    if cases == [] then 0.0
    else
      var prefix := cases[..|cases| - 1];
      assert ProbabilitiesInRange(cases) ==> ProbabilitiesInRange(prefix) by {
        forall k | 0 <= k < |prefix| ensures prefix[k] == cases[k] { }
      }
      SumProbability(prefix) + ProbabilityOrZero(cases[|cases| - 1])
  }

  /** The sum over two lists one after the other is the sum of their sums. */
  lemma {:induction false} SumProbabilityAppend(a: seq<DebtCase>, b: seq<DebtCase>)
    ensures SumProbability(a + b) == SumProbability(a) + SumProbability(b)
    decreases |b|
  {
    if b == [] {
      assert a + b == a;
    } else {
      var b' := b[..|b| - 1];
      assert (a + b)[..|a + b| - 1] == a + b';
      assert (a + b)[|a + b| - 1] == b[|b| - 1];
      SumProbabilityAppend(a, b');
    }
  }

  /** The KPI "Avg Recovery Probability" before `toFixed(1)`: `None` is the literal '0'
      shown for an empty list, which involves no division. */
  function AverageRecoveryPercent(cases: seq<DebtCase>): (a: Option<real>)
    ensures a.None? <==> cases == []
    ensures a.Some? ==> a.value == SumProbability(cases) / (|cases| as real) * 100.0
  {
    if |cases| > 0 then Some(SumProbability(cases) / (|cases| as real) * 100.0) else None
  }

  /** With probabilities in [0, 1] the average shown is a percentage in [0, 100]. */
  lemma AverageRecoveryPercentBounds(cases: seq<DebtCase>)
    requires ProbabilitiesInRange(cases)
    requires cases != []
    ensures 0.0 <= AverageRecoveryPercent(cases).value <= 100.0
  {
    var n := |cases| as real;
    var mean := SumProbability(cases) / n;
    assert mean * n == SumProbability(cases);
    assert 0.0 <= mean <= 1.0;
  }

  /** `getRecoveryStatus`: at least 0.8 is likely recoverable, below 0.4 is high risk. */
  function RecoveryStatus(probability: real): (status: string)
    ensures status == "Likely Recoverable" <==> probability >= 0.8
    ensures status == "High Risk" <==> probability < 0.4
    ensures status == "Moderate Risk" <==> 0.4 <= probability < 0.8
  {
    if probability >= 0.8 then "Likely Recoverable"
    else if probability < 0.4 then "High Risk"
    else "Moderate Risk"
  }

  /** Orders the statuses from riskiest to safest. */
  function StatusRank(status: string): nat {
    if status == "High Risk" then 0 else if status == "Moderate Risk" then 1 else 2
  }

  /** A higher probability never yields a riskier status. */
  lemma RecoveryStatusMonotone(p: real, q: real)
    requires p <= q
    ensures StatusRank(RecoveryStatus(p)) <= StatusRank(RecoveryStatus(q))
  {
  }

  /** The status column: `getRecoveryStatus(caseItem.recovery_probability || 0)`,
      so a case with no probability is shown as high risk. */
  function CaseRecoveryStatus(c: DebtCase): (status: string)
    ensures c.recoveryProbability.None? ==> status == "High Risk"
    ensures c.recoveryProbability.Some? ==> status == RecoveryStatus(c.recoveryProbability.value)
  {
    RecoveryStatus(ProbabilityOrZero(c))
  }

  function Id(c: DebtCase): int {
    c.id
  }

  /** On the mock list: filter "Low" shows cases 3 and 7, three cases are "High",
      three are over 90 days overdue, and there are eight in all. */
  lemma MockCasesFacts()
    ensures |MOCK_CASES| == 8
    ensures Ids(FilteredCases(MOCK_CASES, "Low"), Id) == [3, 7]
    ensures HighPriorityCount(MOCK_CASES) == 3
    ensures CasesAtRisk(MOCK_CASES) == 3
  {
    var m := MOCK_CASES;
    var low := FilteredCases(m, "Low");
    assert low == [m[2], m[6]] by {
      assert Seqs.IsSubsequence([m[2]], m[..3]);
      assert m[..4][..3] == m[..3];
      assert Seqs.IsSubsequence([m[2]], m[..4]);
      assert m[..5][..4] == m[..4];
      assert Seqs.IsSubsequence([m[2]], m[..5]);
      assert m[..6][..5] == m[..5];
      assert Seqs.IsSubsequence([m[2]], m[..6]);
      assert [m[2], m[6]][..1] == [m[2]] && m[..7][..6] == m[..6];
      assert Seqs.IsSubsequence([m[2], m[6]], m[..7]);
      assert m[..8] == m;
      assert Seqs.IsSubsequence([m[2], m[6]], m);
      assert PriorityPositions(m, AiPriority, "Low") == {2, 6};
      FilteredCasesUnique(m, "Low", [m[2], m[6]]);
    }
    assert PriorityPositions(m, AiPriority, "High") == {0, 3, 7};
    assert Seqs.MatchSet(m, IsAtRisk) == {0, 3, 7};
  }

  /** The admin page's state: the session store it reads and clears, the signed-in
      user, the held cases, the loading flag, the filter selection, the last route it
      navigated to and the requests it sent. */
  class AdminPage {
    var session: Store
    var user: Option<User>
    var cases: seq<DebtCase>
    var loading: bool
    var priorityFilter: string
    var navigatedTo: Option<string>
    var requests: seq<Request>

    /** The page as first rendered: no user, no cases, loading, filter "All". */
    constructor (store: Store)
      ensures session == store && user == None && cases == [] && loading
      ensures priorityFilter == ALL && navigatedTo == None && requests == []
    {
      session := store;
      user := None;
      cases := [];
      loading := true;
      priorityFilter := ALL;
      navigatedTo := None;
      requests := [];
    }

    /** `fetchCases`: one GET with the stored token, then the reply's list or the mock
      list; `loading` is cleared on every path, as the `finally` block does. */
    method FetchCases(network: FetchResult<DebtCase>)
      modifies this`cases, this`loading, this`requests
      ensures requests == old(requests) + [GetCases(ADMIN_CASES_URL, GetItem(session, TOKEN_KEY))]
      ensures cases == Classify(network, MOCK_CASES).cases
      ensures !loading
    {
      var token := GetItem(session, TOKEN_KEY);
      requests := requests + [GetCases(ADMIN_CASES_URL, token)];
      match network {
        case Ok(success, data) =>
          if success && data.Some? {
            cases := data.value;
          } else {
            cases := MOCK_CASES;
          }
        case NotOk =>
          cases := MOCK_CASES;
        case Throws =>
          cases := MOCK_CASES;
      }
      loading := false;
    }

    /** The mount effect. Without a token or a user it navigates to the login page
      and fetches nothing; there is no role check. A stored user that is not JSON
      makes `JSON.parse` throw (`threw`), which stops the effect. Otherwise it keeps
      the user and fetches the cases. */
    method Mount(network: FetchResult<DebtCase>) returns (threw: bool)
      modifies this
      ensures session == old(session) && priorityFilter == old(priorityFilter)
      ensures threw <==> CheckSession(session).ParseThrows?
      ensures CheckSession(session).RedirectToLogin? ==>
        navigatedTo == Some(LOGIN_ROUTE) && requests == old(requests) &&
        user == old(user) && cases == old(cases) && loading == old(loading)
      ensures CheckSession(session).ParseThrows? ==>
        navigatedTo == old(navigatedTo) && requests == old(requests) &&
        user == old(user) && cases == old(cases) && loading == old(loading)
      ensures CheckSession(session).Admitted? ==>
        navigatedTo == old(navigatedTo) && user == Some(CheckSession(session).user) &&
        requests == old(requests) + [GetCases(ADMIN_CASES_URL, GetItem(session, TOKEN_KEY))] &&
        cases == Classify(network, MOCK_CASES).cases && !loading
    {
      threw := false;
      var token := GetItem(session, TOKEN_KEY);
      var userData := GetItem(session, USER_KEY);
      if !Truthy(token) || !Truthy(userData) {
        navigatedTo := Some(LOGIN_ROUTE);
        return;
      }
      var parsed := ParseUser(userData.value);
      if parsed.None? {
        threw := true;
        return;
      }
      user := parsed;
      FetchCases(network);
    }

    /** `handleLogout`: both keys removed, every other key kept, then the login page. */
    method HandleLogout()
      modifies this`session, this`navigatedTo
      ensures session == ClearSession(old(session))
      ensures navigatedTo == Some(LOGIN_ROUTE)
    {
      session := session - {TOKEN_KEY};
      session := session - {USER_KEY};
      navigatedTo := Some(LOGIN_ROUTE);
    }

    /** The filter control's `onChange`: only the selection changes; nothing is re-fetched. */
    method SetPriorityFilter(value: string)
      modifies this`priorityFilter
      ensures priorityFilter == value
    {
      priorityFilter := value;
    }

    /** The rows the table shows (`filteredCases.map(...)`): all held cases under
      "All", otherwise those of the selected priority, in the held order. */
    function Displayed(): (shown: seq<DebtCase>)
      reads this
      ensures priorityFilter == ALL ==> shown == cases
      ensures priorityFilter != ALL ==> forall k :: 0 <= k < |shown| ==> shown[k].aiPriority == priorityFilter
      ensures priorityFilter != ALL ==> |shown| == |PriorityPositions(cases, AiPriority, priorityFilter)|
      ensures Seqs.IsSubsequence(shown, cases)
    {
      FilteredCases(cases, priorityFilter)
    }
  }
}
