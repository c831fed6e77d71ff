/** The priority step of pipeline/preprocess.py: a label per recovery probability,
    with thresholds different from the backend's fallback mapping. */
module Pipeline {
  import opened Wrappers
  import Backend

  /** `assign_priority`: thresholds 0.7 and 0.4, both inclusive. */
  function AssignPriority(prob: real): (priority: string)
    ensures priority == "High" <==> prob >= 0.7
    ensures priority == "Medium" <==> 0.4 <= prob < 0.7
    ensures priority == "Low" <==> prob < 0.4
  {
    if prob >= 0.7 then "High"
    else if prob >= 0.4 then "Medium"
    else "Low"
  }

  /** The order of the labels: Low below Medium below High. */
  function Rank(priority: string): nat {
    if priority == "High" then 2 else if priority == "Medium" then 1 else 0
  }

  /** A higher probability never gets a lower label. */
  lemma AssignPriorityMonotone(p: real, q: real)
    requires p <= q
    ensures Rank(AssignPriority(p)) <= Rank(AssignPriority(q))
  {
  }

  /** The two mappings differ exactly on [0.3, 0.4), where this one says "Low" and the
      backend's says "Medium". */
  lemma DisagreesWithMapPriority(p: real)
    ensures AssignPriority(p) != Backend.MapPriority(Some(p)) <==> 0.3 <= p < 0.4
    ensures 0.3 <= p < 0.4 ==> AssignPriority(p) == "Low" && Backend.MapPriority(Some(p)) == "Medium"
  {
  }

  /** `df["recovery_probability"].apply(assign_priority)`: one label per row, in row order. */
  function PriorityColumn(probabilities: seq<real>): (labels: seq<string>)
    ensures |labels| == |probabilities|
    ensures forall k :: 0 <= k < |labels| ==> labels[k] == AssignPriority(probabilities[k])
  {
    seq(|probabilities|, k requires 0 <= k < |probabilities| => AssignPriority(probabilities[k]))
  }

  /** The column of a concatenation is the concatenation of the columns. */
  lemma PriorityColumnAppend(a: seq<real>, b: seq<real>)
    ensures PriorityColumn(a + b) == PriorityColumn(a) + PriorityColumn(b)
  {
  }

  /** A column sorted by probability gets labels in non-decreasing order. */
  lemma PriorityColumnSorted(probabilities: seq<real>)
    requires forall i, j :: 0 <= i <= j < |probabilities| ==> probabilities[i] <= probabilities[j]
    ensures forall i, j :: 0 <= i <= j < |probabilities| ==>
      Rank(PriorityColumn(probabilities)[i]) <= Rank(PriorityColumn(probabilities)[j])
  {
    forall i, j | 0 <= i <= j < |probabilities|
      ensures Rank(PriorityColumn(probabilities)[i]) <= Rank(PriorityColumn(probabilities)[j])
    {
      AssignPriorityMonotone(probabilities[i], probabilities[j]);
    }
  }
}
