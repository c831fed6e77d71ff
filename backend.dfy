/** The Flask handlers of app/app.py with the CSV file and HTTP plumbing stripped:
    each handler takes the rows `load_cases` read and returns the JSON body it builds.
    A row whose conversion raises `ValueError` or `KeyError` is skipped; it does not
    abort the request. */
module Backend {
  import opened Wrappers
  import opened Seqs
  import Text

  /** One cell of a CSV row read for a numeric column: the column is absent from the
      file (`row[...]` raises `KeyError`, `row.get` gives its default), present but
      not a number of that type (`int(...)`/`float(...)` raise `ValueError`), or
      parsed. */
  datatype Cell<T> = Missing | Malformed | Parsed(value: T)

  /** `int(row[key])` or `float(row[key])`: a value, or `None` when it raises. */
  function Required<T>(c: Cell<T>): (v: Option<T>)
    ensures v.Some? <==> c.Parsed?
    ensures v.Some? ==> v.value == c.value
  {
    match c
    case Parsed(x) => Some(x)
    case _ => None
  }

  /** `int(row.get(key, default))`: an absent column gives the default, a malformed
      one raises. */
  function Defaulted<T>(c: Cell<T>, default: T): (v: Option<T>)
    ensures v.None? <==> c.Malformed?
    ensures c.Missing? ==> v == Some(default)
    ensures c.Parsed? ==> v == Some(c.value)
  {
    match c
    case Missing => Some(default)
    case Malformed => None
    case Parsed(x) => Some(x)
  }

  /** A row of predicted_cases.csv. String columns are `None` when the file has no
      such column. */
  datatype Row = Row(
    caseId: Cell<int>,
    amountDue: Cell<real>,
    daysOverdue: Cell<int>,
    recovered: Cell<int>,
    recoveryProbability: Cell<real>,
    priority: Option<string>,
    region: Option<string>,
    pastDefaults: Cell<int>)

  /** `map_priority`: thresholds 0.7 and 0.3; an argument `float` cannot convert
      (`None`) is "Low". */
  function MapPriority(prob: Option<real>): (priority: string)
    ensures priority == "High" <==> prob.Some? && prob.value >= 0.7
    ensures priority == "Medium" <==> prob.Some? && 0.3 <= prob.value < 0.7
    ensures priority == "Low" <==> prob.None? || prob.value < 0.3
  {
    match prob
    case None => "Low"
    case Some(p) =>
      if p >= 0.7 then "High"
      else if p >= 0.3 then "Medium"
      else "Low"
  }

  /** A case as `/api/admin/cases` returns it. */
  datatype AdminCase = AdminCase(
    id: int,
    debtorName: string,
    amount: real,
    daysOverdue: int,
    status: string,
    recoveryProbability: real,
    aiPriority: string,
    region: string,
    pastDefaults: int)

  /** A case as `/api/dca/cases` returns it. */
  datatype DcaCase = DcaCase(
    id: int,
    amount: real,
    daysOverdue: int,
    aiPriority: string,
    recoveryProbability: real,
    region: string)

  /** `row.get('priority', map_priority(...))`: the row's own priority when the column
      exists (even when it is empty), otherwise the mapped one. */
  function RowPriority(row: Row, prob: real): (priority: string)
    ensures row.priority.Some? ==> priority == row.priority.value
    ensures row.priority.None? ==> priority == MapPriority(Some(prob))
  {
    row.priority.GetOr(MapPriority(Some(prob)))
  }

  /** The rows the admin endpoint keeps: every conversion it makes succeeds. */
  predicate AdminRowValid(row: Row) {
    row.caseId.Parsed? && row.amountDue.Parsed? && row.daysOverdue.Parsed? &&
    !row.recovered.Malformed? && row.recoveryProbability.Parsed? && !row.pastDefaults.Malformed?
  }

  /** The dictionary literal of `get_admin_cases` for one row, or `None` when one of
      its conversions raises. */
  function ShapeAdminRow(row: Row): (c: Option<AdminCase>)
    ensures c.Some? <==> AdminRowValid(row)
    ensures c.Some? ==>
      c.value.id == row.caseId.value &&
      c.value.debtorName == "Debtor #" + Text.IntToDecimal(row.caseId.value) &&
      c.value.amount == row.amountDue.value &&
      c.value.daysOverdue == row.daysOverdue.value &&
      c.value.recoveryProbability == row.recoveryProbability.value &&
      c.value.aiPriority == RowPriority(row, row.recoveryProbability.value) &&
      c.value.region == row.region.GetOr("Unknown") &&
      Defaulted(row.pastDefaults, 0) == Some(c.value.pastDefaults)
    ensures c.Some? ==> (c.value.status == "resolved" <==> Defaulted(row.recovered, 0) == Some(1))
    ensures c.Some? ==> (c.value.status == "active" <==> Defaulted(row.recovered, 0) != Some(1))
  {
    match (Required(row.caseId), Required(row.amountDue), Required(row.daysOverdue),
           Defaulted(row.recovered, 0), Required(row.recoveryProbability), Defaulted(row.pastDefaults, 0))
    case (Some(id), Some(amount), Some(days), Some(recovered), Some(prob), Some(pastDefaults)) =>
      Some(AdminCase(
        id,
        "Debtor #" + Text.IntToDecimal(id),
        amount,
        days,
        if recovered == 1 then "resolved" else "active",
        prob,
        RowPriority(row, prob),
        row.region.GetOr("Unknown"),
        pastDefaults))
    case _ => None
  }

  /** The rows the DCA endpoint returns: an even case id and every conversion made for
      it succeeds. Python's `%` by 2 agrees with Dafny's for negative ids too. */
  predicate DcaRowAssigned(row: Row) {
    row.caseId.Parsed? && row.caseId.value % 2 == 0 &&
    row.amountDue.Parsed? && row.daysOverdue.Parsed? && row.recoveryProbability.Parsed?
  }

  /** The loop body of `get_dca_cases` for one row: nothing for an odd id (whose other
      columns are never read), nothing when a conversion raises. */
  function ShapeDcaRow(row: Row): (c: Option<DcaCase>)
    ensures c.Some? <==> DcaRowAssigned(row)
    ensures c.Some? ==>
      c.value.id == row.caseId.value && c.value.id % 2 == 0 &&
      c.value.amount == row.amountDue.value &&
      c.value.daysOverdue == row.daysOverdue.value &&
      c.value.aiPriority == RowPriority(row, row.recoveryProbability.value) &&
      c.value.recoveryProbability == row.recoveryProbability.value &&
      c.value.region == row.region.GetOr("Unknown")
  {
    match Required(row.caseId)
    case None => None
    case Some(id) =>
      if id % 2 != 0 then None
      else
        match (Required(row.amountDue), Required(row.daysOverdue), Required(row.recoveryProbability))
        case (Some(amount), Some(days), Some(prob)) =>
          Some(DcaCase(id, amount, days, RowPriority(row, prob), prob, row.region.GetOr("Unknown")))
        case _ => None
  }

  /** A row the admin endpoint keeps and whose id is even is also returned to the
      agency, with the same values. */
  lemma DcaCaseAgreesWithAdminCase(row: Row)
    requires AdminRowValid(row) && row.caseId.value % 2 == 0
    ensures ShapeDcaRow(row).Some?
    ensures var a, d := ShapeAdminRow(row).value, ShapeDcaRow(row).value;
      d == DcaCase(a.id, a.amount, a.daysOverdue, a.aiPriority, a.recoveryProbability, a.region)
  {
  }

  /** The JSON body of a case endpoint; `total` and `message` are present or not. */
  datatype CasesResponse<T> = CasesResponse(success: bool, cases: seq<T>, total: Option<nat>, message: Option<string>)

  const NO_CASES := "No cases found"
  const NO_ASSIGNED_CASES := "No assigned cases found"

  /** `get_admin_cases`: an empty file gives an empty list and a message; otherwise the
      shaped valid rows, in order, with their number as `total`. */
  method GetAdminCases(rows: seq<Row>) returns (resp: CasesResponse<AdminCase>)
    ensures resp.success
    ensures rows == [] ==> resp == CasesResponse(true, [], None, Some(NO_CASES))
    ensures rows != [] ==> resp.cases == KeepSome(rows, ShapeAdminRow)
    ensures rows != [] ==> resp.total == Some(|resp.cases|) && resp.message == None
  {
    if |rows| == 0 {
      return CasesResponse(true, [], None, Some(NO_CASES));
    }
    var cases: seq<AdminCase> := [];
    for i := 0 to |rows|
      invariant cases == KeepSome(rows[..i], ShapeAdminRow)
    {
      assert rows[..i + 1][..i] == rows[..i];
      var shaped := ShapeAdminRow(rows[i]);
      match shaped {
        case Some(c) => cases := cases + [c];
        case None =>
      }
    }
    assert rows[..|rows|] == rows;
    resp := CasesResponse(true, cases, Some(|cases|), None);
  }

  /** `get_dca_cases`: as for the admin endpoint, over the assigned rows. */
  method GetDcaCases(rows: seq<Row>) returns (resp: CasesResponse<DcaCase>)
    ensures resp.success
    ensures rows == [] ==> resp == CasesResponse(true, [], None, Some(NO_ASSIGNED_CASES))
    ensures rows != [] ==> resp.cases == KeepSome(rows, ShapeDcaRow)
    ensures rows != [] ==> resp.total == Some(|resp.cases|) && resp.message == None
  {
    if |rows| == 0 {
      return CasesResponse(true, [], None, Some(NO_ASSIGNED_CASES));
    }
    var cases: seq<DcaCase> := [];
    for i := 0 to |rows|
      invariant cases == KeepSome(rows[..i], ShapeDcaRow)
    {
      assert rows[..i + 1][..i] == rows[..i];
      var caseId := Required(rows[i].caseId);
      if caseId.Some? && caseId.value % 2 == 0 {
        var amount := Required(rows[i].amountDue);
        var days := Required(rows[i].daysOverdue);
        var prob := Required(rows[i].recoveryProbability);
        if amount.Some? && days.Some? && prob.Some? {
          var c := DcaCase(caseId.value, amount.value, days.value, RowPriority(rows[i], prob.value),
                           prob.value, rows[i].region.GetOr("Unknown"));
          cases := cases + [c];
        }
      }
    }
    assert rows[..|rows|] == rows;
    resp := CasesResponse(true, cases, Some(|cases|), None);
  }

  /** A row that fails conversion drops out on its own: the rows before and after it
      are shaped as if it were not there, and keep their order. */
  lemma SkippedRowIsLocal(before: seq<Row>, bad: Row, after: seq<Row>)
    requires !AdminRowValid(bad)
    ensures KeepSome(before + [bad] + after, ShapeAdminRow)
         == KeepSome(before, ShapeAdminRow) + KeepSome(after, ShapeAdminRow)
  {
    KeepSomeSkip(before, bad, after, ShapeAdminRow);
  }

  /** The admin endpoint returns one case per valid row, so never more than it read. */
  lemma AdminCaseCount(rows: seq<Row>)
    ensures |KeepSome(rows, ShapeAdminRow)| == CountWhere(rows, AdminRowValid)
    ensures |KeepSome(rows, ShapeAdminRow)| <= |rows|
  {
    KeepSomeCount(rows, ShapeAdminRow, AdminRowValid);
  }

  /** The DCA endpoint returns one case per assigned row. */
  lemma DcaCaseCount(rows: seq<Row>)
    ensures |KeepSome(rows, ShapeDcaRow)| == CountWhere(rows, DcaRowAssigned)
  {
    KeepSomeCount(rows, ShapeDcaRow, DcaRowAssigned);
  }

  /** Every case the DCA endpoint returns has an even id and comes from an input row. */
  lemma DcaCasesAreEven(rows: seq<Row>, k: nat)
    requires k < |KeepSome(rows, ShapeDcaRow)|
    ensures KeepSome(rows, ShapeDcaRow)[k].id % 2 == 0
    ensures exists i :: 0 <= i < |rows| && rows[i].caseId == Parsed(KeepSome(rows, ShapeDcaRow)[k].id)
  {
    KeepSomeOrigin(rows, ShapeDcaRow, k);
  }

  /** Rows keep their order in the DCA output: the cases of a prefix come first. */
  lemma DcaCasesInInputOrder(before: seq<Row>, after: seq<Row>)
    ensures KeepSome(before + after, ShapeDcaRow) == KeepSome(before, ShapeDcaRow) + KeepSome(after, ShapeDcaRow)
  {
    KeepSomeAppend(before, after, ShapeDcaRow);
  }

  /** The values the metrics loop reads from one row, or `None` when it skips it. */
  datatype Sample = Sample(recoveryProbability: real, daysOverdue: int, recovered: int, priority: string)

  /** The conversions at the top of the metrics loop body. */
  function SampleOf(row: Row): (s: Option<Sample>)
    ensures s.Some? <==> row.recoveryProbability.Parsed? && row.daysOverdue.Parsed? && !row.recovered.Malformed?
    ensures s.Some? ==>
      s.value.recoveryProbability == row.recoveryProbability.value &&
      s.value.daysOverdue == row.daysOverdue.value &&
      Defaulted(row.recovered, 0) == Some(s.value.recovered) &&
      s.value.priority == row.priority.GetOr("")
  {
    match (Required(row.recoveryProbability), Required(row.daysOverdue), Defaulted(row.recovered, 0))
    case (Some(prob), Some(days), Some(recovered)) => Some(Sample(prob, days, recovered, row.priority.GetOr("")))
    case _ => None
  }

  predicate Counted(row: Row) {
    SampleOf(row).Some?
  }

  /** `recovery_prob >= 0.7 or priority == 'High'` on a row the loop does not skip. */
  predicate IsHighPriorityRow(row: Row) {
    match SampleOf(row)
    case Some(s) => s.recoveryProbability >= 0.7 || s.priority == "High"
    case None => false
  }

  /** `days_overdue > 90`: strictly more than ninety days. */
  predicate IsAtRiskRow(row: Row) {
    match SampleOf(row)
    case Some(s) => s.daysOverdue > 90
    case None => false
  }

  predicate IsResolvedRow(row: Row) {
    match SampleOf(row)
    case Some(s) => s.recovered == 1
    case None => false
  }

  predicate IsActiveRow(row: Row) {
    match SampleOf(row)
    case Some(s) => s.recovered != 1
    case None => false
  }

  function RowProbability(row: Row): real {
    match SampleOf(row)
    case Some(s) => s.recoveryProbability
    case None => 0.0
  }

  /** Every probability the metrics loop reads is in [0, 1]. */
  ghost predicate CountedInRange(rows: seq<Row>) {
    forall k :: 0 <= k < |rows| && Counted(rows[k]) ==> 0.0 <= rows[k].recoveryProbability.value <= 1.0
  }

  /** `total_recovery_prob` after the loop: the sum of the probabilities of the rows
      not skipped. With those in [0, 1] it is between 0 and the number of such rows. */
  function TotalProbability(rows: seq<Row>): (t: real)
    ensures CountedInRange(rows) ==> 0.0 <= t <= CountWhere(rows, Counted) as real
    decreases |rows|
  {
    if rows == [] then
      assert MatchSet(rows, Counted) == {};
      0.0
    else
      var init, last := rows[..|rows| - 1], rows[|rows| - 1];
      assert rows == init + [last];
      assert CountedInRange(rows) ==> CountedInRange(init) by {
        forall k | 0 <= k < |init| ensures init[k] == rows[k] { }
      }
      CountWhereSnoc(init, last, Counted);
      TotalProbability(init) + RowProbability(last)
  }

  /** The `metrics` object. The two split counters exist only for a non-empty file. */
  datatype Metrics = Metrics(
    totalCases: nat,
    highPriorityCases: nat,
    avgRecoveryProbability: real,
    casesAtRisk: nat,
    activeCases: Option<nat>,
    resolvedCases: Option<nat>)

  /** The metrics of a file: all zeros for an empty one; otherwise the number of rows
      read, the counts of the rows not skipped that are high priority, at risk,
      active and resolved, and the probability sum divided by the number of rows read
      (skipped ones included). */
  ghost function MetricsOf(rows: seq<Row>): (m: Metrics)
    ensures rows == [] ==> m == Metrics(0, 0, 0.0, 0, None, None)
    ensures m.activeCases.Some? <==> rows != []
    ensures m.resolvedCases.Some? <==> rows != []
    ensures rows != [] ==>
      m.totalCases == |rows| &&
      m.activeCases.value + m.resolvedCases.value <= m.totalCases &&
      m.highPriorityCases <= m.totalCases && m.casesAtRisk <= m.totalCases
  {
    if rows == [] then Metrics(0, 0, 0.0, 0, None, None)
    else
      CountWherePartition(rows, IsActiveRow, IsResolvedRow, Counted);
      CountWhereBound(rows, Counted);
      CountWhereSubset(rows, IsHighPriorityRow, Counted);
      CountWhereSubset(rows, IsAtRiskRow, Counted);
      Metrics(
      |rows|,
      CountWhere(rows, IsHighPriorityRow),
      TotalProbability(rows) / (|rows| as real),
      CountWhere(rows, IsAtRiskRow),
      Some(CountWhere(rows, IsActiveRow)),
      Some(CountWhere(rows, IsResolvedRow)))
  }

  /** `get_admin_metrics`: one pass with five counters computes `MetricsOf`. */
  method GetAdminMetrics(rows: seq<Row>) returns (m: Metrics)
    ensures m == MetricsOf(rows)
  {
    if |rows| == 0 {
      return Metrics(0, 0, 0.0, 0, None, None);
    }
    var totalCases := |rows|;
    var highPriorityCases := 0;
    var totalRecoveryProb := 0.0;
    var casesAtRisk := 0;
    var activeCases := 0;
    var resolvedCases := 0;
    for i := 0 to |rows|
      invariant highPriorityCases == CountWhere(rows[..i], IsHighPriorityRow)
      invariant totalRecoveryProb == TotalProbability(rows[..i])
      invariant casesAtRisk == CountWhere(rows[..i], IsAtRiskRow)
      invariant activeCases == CountWhere(rows[..i], IsActiveRow)
      invariant resolvedCases == CountWhere(rows[..i], IsResolvedRow)
    {
      assert rows[..i + 1] == rows[..i] + [rows[i]];
      CountWhereSnoc(rows[..i], rows[i], IsHighPriorityRow);
      CountWhereSnoc(rows[..i], rows[i], IsAtRiskRow);
      CountWhereSnoc(rows[..i], rows[i], IsActiveRow);
      CountWhereSnoc(rows[..i], rows[i], IsResolvedRow);
      var sample := SampleOf(rows[i]);
      if sample.Some? {
        var s := sample.value;
        if s.recoveryProbability >= 0.7 || s.priority == "High" {
          highPriorityCases := highPriorityCases + 1;
        }
        totalRecoveryProb := totalRecoveryProb + s.recoveryProbability;
        if s.daysOverdue > 90 {
          casesAtRisk := casesAtRisk + 1;
        }
        if s.recovered == 1 {
          resolvedCases := resolvedCases + 1;
        } else {
          activeCases := activeCases + 1;
        }
      }
    }
    assert rows[..|rows|] == rows;
    m := Metrics(totalCases, highPriorityCases, totalRecoveryProb / (totalCases as real), casesAtRisk,
                 Some(activeCases), Some(resolvedCases));
  }

  /** Every counted row is either active or resolved, so the two split counters add up
      to the rows not skipped, which are at most the rows read; the high-priority and
      at-risk counters are bounded by the same number. */
  lemma MetricsSplit(rows: seq<Row>)
    ensures rows != [] ==>
      MetricsOf(rows).activeCases.value + MetricsOf(rows).resolvedCases.value == CountWhere(rows, Counted) &&
      CountWhere(rows, Counted) <= MetricsOf(rows).totalCases
    ensures CountWhere(rows, IsActiveRow) + CountWhere(rows, IsResolvedRow) == CountWhere(rows, Counted)
    ensures CountWhere(rows, Counted) <= |rows|
    ensures CountWhere(rows, IsHighPriorityRow) <= CountWhere(rows, Counted)
    ensures CountWhere(rows, IsAtRiskRow) <= CountWhere(rows, Counted)
  {
    CountWherePartition(rows, IsActiveRow, IsResolvedRow, Counted);
    CountWhereBound(rows, Counted);
    CountWhereSubset(rows, IsHighPriorityRow, Counted);
    CountWhereSubset(rows, IsAtRiskRow, Counted);
  }

  /** A predicate that implies another never counts more. */
  lemma CountWhereSubset(rows: seq<Row>, p: Row -> bool, q: Row -> bool)
    requires forall x :: p(x) ==> q(x)
    ensures CountWhere(rows, p) <= CountWhere(rows, q)
  {
    assert MatchSet(rows, p) <= MatchSet(rows, q);
    SubsetCardinality(MatchSet(rows, p), MatchSet(rows, q));
  }

  lemma {:induction false} SubsetCardinality(a: set<nat>, b: set<nat>)
    requires a <= b
    ensures |a| <= |b|
    decreases |b|
  {
    if a != {} {
      var x :| x in a;
      SubsetCardinality(a - {x}, b - {x});
    }
  }

  /** When every probability read is in [0, 1], the average is in [0, 1] and is at most
      the share of rows not skipped: skipped rows pull the average down. */
  lemma AverageBounds(rows: seq<Row>)
    requires rows != []
    requires CountedInRange(rows)
    ensures 0.0 <= TotalProbability(rows) / (|rows| as real) <= 1.0
    ensures TotalProbability(rows) / (|rows| as real) <= (CountWhere(rows, Counted) as real) / (|rows| as real)
  {
    CountWhereBound(rows, Counted);
    DivisionBounds(TotalProbability(rows), CountWhere(rows, Counted) as real, |rows| as real);
  }

  lemma DivisionBounds(t: real, c: real, n: real)
    requires 0.0 <= t <= c <= n && 0.0 < n
    ensures 0.0 <= t / n <= c / n <= 1.0
  {
    assert t / n * n == t && c / n * n == c;
  }

  /** Ninety days overdue is not at risk; ninety-one is. */
  lemma AtRiskIsStrict(row: Row)
    requires row.recoveryProbability.Parsed? && !row.recovered.Malformed?
    ensures row.daysOverdue == Parsed(90) ==> !IsAtRiskRow(row)
    ensures row.daysOverdue == Parsed(91) ==> IsAtRiskRow(row)
  {
  }
}
