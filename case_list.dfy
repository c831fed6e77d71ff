/** View logic the two dashboards share: how a fetch outcome turns into the case list
    the page holds, the priority filter, and the priority badge label. */
module CaseList {
  import opened Wrappers
  import opened Seqs

  /** What a dashboard's `fetch` can come back with. `Ok` is an HTTP success whose
      JSON body has the given `success` flag and, when present, a `cases` array. */
  datatype FetchResult<T> =
    | Throws                                         // network error or unreadable body
    | NotOk                                          // HTTP status outside 200-299
    | Ok(success: bool, cases: Option<seq<T>>)

  /** The list a page ends up showing, tagged with where it came from. */
  datatype Loaded<T> = Adopted(cases: seq<T>) | Fallback(cases: seq<T>)

  /** `if (response.ok) { if (data.success && data.cases) setCases(data.cases) else
      useMockData() } else useMockData()`, with a thrown error also handled by
      `useMockData()`. An array is truthy even when empty, so an empty list is adopted. */
  function Classify<T>(r: FetchResult<T>, mock: seq<T>): (o: Loaded<T>)
    ensures o.Adopted? <==> r.Ok? && r.success && r.cases.Some?
    ensures o.Adopted? ==> o.cases == r.cases.value
    ensures o.Fallback? ==> o.cases == mock
  {
    match r
    case Ok(true, Some(cs)) => Adopted(cs)
    case _ => Fallback(mock)
  }

  /** A successful reply with an empty list shows no cases; it does not fall back. */
  lemma EmptyListIsAdopted<T>(mock: seq<T>)
    ensures Classify(Ok(true, Some([])), mock) == Adopted([])
  {
  }

  const ALL := "All"

  /** The three `ai_priority` values; the filter control offers them and "All". */
  const PRIORITIES: set<string> := {"High", "Medium", "Low"}

  lemma {:induction false} SubsequenceReflexive<T>(s: seq<T>)
    ensures IsSubsequence(s, s)
    decreases |s|
  {
    if s != [] {
      SubsequenceReflexive(s[..|s| - 1]);
    }
  }

  /** The positions of the cases whose priority is `filter`. */
  ghost function PriorityPositions<T>(cases: seq<T>, priorityOf: T -> string, filter: string): set<nat> {
    set i: nat | i < |cases| && priorityOf(cases[i]) == filter
  }

  /** `priorityFilter === 'All' ? cases : cases.filter(c => c.ai_priority === priorityFilter)`,
      with `priorityOf` reading a case's `ai_priority`. */
  function ByPriority<T>(cases: seq<T>, priorityOf: T -> string, filter: string): (r: seq<T>)
    ensures filter == ALL ==> r == cases
    ensures filter != ALL ==> forall k :: 0 <= k < |r| ==> priorityOf(r[k]) == filter
    ensures filter != ALL ==> |r| == |PriorityPositions(cases, priorityOf, filter)|
    ensures IsSubsequence(r, cases)
    ensures |r| <= |cases|
  {
    if filter == ALL then
      SubsequenceReflexive(cases);
      cases
    else
      var p := (c: T) => priorityOf(c) == filter;
      FilterCount(cases, p);
      FilterIsSubsequence(cases, p);
      assert MatchSet(cases, p) == PriorityPositions(cases, priorityOf, filter);
      Filter(cases, p)
  }

  /** The filtered list is the only subsequence of `cases` made of cases with the
      selected priority that has as many elements as `cases` has such cases. */
  lemma ByPriorityUnique<T>(cases: seq<T>, priorityOf: T -> string, filter: string, r: seq<T>)
    requires filter != ALL
    requires IsSubsequence(r, cases)
    requires forall k :: 0 <= k < |r| ==> priorityOf(r[k]) == filter
    requires |r| == |PriorityPositions(cases, priorityOf, filter)|
    ensures r == ByPriority(cases, priorityOf, filter)
  {
    var p := (c: T) => priorityOf(c) == filter;
    assert MatchSet(cases, p) == PriorityPositions(cases, priorityOf, filter);
    FilterUnique(cases, p, r);
  }

  /** A case is shown under a specific filter exactly when it is held and has that priority. */
  lemma ByPriorityMembership<T>(cases: seq<T>, priorityOf: T -> string, filter: string, c: T)
    requires filter != ALL
    ensures c in ByPriority(cases, priorityOf, filter) <==> c in cases && priorityOf(c) == filter
  {
    FilterMembership(cases, (x: T) => priorityOf(x) == filter, c);
  }

  /** The ids of a list of cases, in order. */
  function Ids<T>(cases: seq<T>, idOf: T -> int): (ids: seq<int>)
    ensures |ids| == |cases|
    ensures forall k :: 0 <= k < |cases| ==> ids[k] == idOf(cases[k])
  {
    seq(|cases|, k requires 0 <= k < |cases| => idOf(cases[k]))
  }

  /** `getPriorityLabel`: the badge text for a priority; any other string is shown as is. */
  function PriorityLabel(priority: string): (caption: string)
    ensures priority == "High" ==> caption == "High Recovery Priority"
    ensures priority == "Medium" ==> caption == "Moderate Recovery Priority"
    ensures priority == "Low" ==> caption == "Low Recovery Probability"
    ensures caption == priority <==> priority !in PRIORITIES
  {
    if priority == "High" then "High Recovery Priority"
    else if priority == "Medium" then "Moderate Recovery Priority"
    else if priority == "Low" then "Low Recovery Probability"
    else priority
  }

  /** The options of the filter control: value and text. */
  const FILTER_OPTIONS: seq<(string, string)> := [
    ("All", "All"),
    ("High", "High Recovery Priority"),
    ("Medium", "Moderate Recovery Priority"),
    ("Low", "Low Recovery Probability")
  ]

  /** Every filter option except "All" is captioned with the badge label of its value,
      and the option values are exactly "All" and the three priorities. */
  lemma FilterOptionsMatchLabels()
    ensures forall k :: 1 <= k < |FILTER_OPTIONS| ==> FILTER_OPTIONS[k].1 == PriorityLabel(FILTER_OPTIONS[k].0)
    ensures (set k | 0 <= k < |FILTER_OPTIONS| :: FILTER_OPTIONS[k].0) == PRIORITIES + {ALL}
  {
    var values := set k | 0 <= k < |FILTER_OPTIONS| :: FILTER_OPTIONS[k].0;
    assert FILTER_OPTIONS[0].0 in values && FILTER_OPTIONS[1].0 in values;
    assert FILTER_OPTIONS[2].0 in values && FILTER_OPTIONS[3].0 in values;
  }
}
