/** The report-tracking timeline: a report's status selects one of four steps,
    the steps up to it are drawn completed and exactly one is current. */
module TrackReports {
  import opened Wrappers

  /** `STEPS`, in timeline order. */
  const Steps: seq<string> := ["OPEN", "VERIFIED", "IN_PROGRESS", "RESOLVED"]

  /** `report.status || "OPEN"`: a missing or empty status reads as OPEN. */
  function StatusKey(status: Option<string>): (key: string)
    ensures status.None? || status.value == "" ==> key == "OPEN"
    ensures status.Some? && status.value != "" ==> key == status.value
  {
    if status.Some? && status.value != "" then status.value else "OPEN"
  }

  /** `getCurrentStepIndex` with an own-key lookup: the status's position in
      `Steps`, and 0 for any other status. */
  function StepIndex(status: Option<string>): (i: nat)
    ensures i < |Steps|
    ensures forall k :: 0 <= k < |Steps| && Steps[k] == StatusKey(status) ==> i == k
    ensures StatusKey(status) !in Steps ==> i == 0
  {
    var key := StatusKey(status);
    if key == "VERIFIED" then 1
    else if key == "IN_PROGRESS" then 2
    else if key == "RESOLVED" then 3
    else 0
  }

  predicate Completed(step: nat, current: nat) { step <= current }
  predicate Current(step: nat, current: nat) { step == current }

  /** The completed steps form the prefix ending at the current step, so exactly
      one more than the step index are completed, and exactly one step is current. */
  lemma TimelineShape(status: Option<string>)
    ensures var c := StepIndex(status);
      && (forall k :: 0 <= k < |Steps| ==> (Completed(k, c) <==> k <= c))
      && Completed(0, c)
      && |set k | 0 <= k < |Steps| && Completed(k, c)| == c + 1
      && (exists k :: 0 <= k < |Steps| && Current(k, c))
      && (forall j, k :: 0 <= j < |Steps| && 0 <= k < |Steps| && Current(j, c) && Current(k, c) ==> j == k)
  {
    var c := StepIndex(status);
    assert Current(c, c);
    var done := set k | 0 <= k < |Steps| && Completed(k, c);
    if c == 0 {
      assert done == {0};
    } else if c == 1 {
      assert done == {0, 1};
    } else if c == 2 {
      assert done == {0, 1, 2};
    } else {
      assert done == {0, 1, 2, 3};
    }
  }

  /** Each listed status reaches the step at its own position in `Steps`. */
  lemma StepOrder()
    ensures forall k :: 0 <= k < |Steps| ==> StepIndex(Some(Steps[k])) == k
  {
    forall k | 0 <= k < |Steps|
      ensures StepIndex(Some(Steps[k])) == k
    {
      assert Steps[k] in Steps;
    }
  }

  // ---------------------------------------------------------------- the lookup as written

  /** Names every plain JavaScript object inherits from `Object.prototype`; a
      bracket lookup on the status map finds them even though the map does not
      list them. */
  const InheritedNames: set<string> := {
    "constructor", "hasOwnProperty", "isPrototypeOf", "propertyIsEnumerable",
    "toLocaleString", "toString", "valueOf", "__proto__",
    "__defineGetter__", "__defineSetter__", "__lookupGetter__", "__lookupSetter__" }

  /** What `statusMap[status] ?? 0` yields: an index, or an inherited function
      or object, which is neither null nor undefined and so is kept. */
  datatype StepValue = Index(i: nat) | InheritedValue

  function StepIndexAsWritten(status: Option<string>): (v: StepValue)
    ensures StatusKey(status) !in InheritedNames ==> v == Index(StepIndex(status))
    ensures StatusKey(status) in InheritedNames ==> v == InheritedValue
  {
    var key := StatusKey(status);
    if key in InheritedNames then InheritedValue else Index(StepIndex(status))
  }

  /** `index <= currentStep` and `index === currentStep` as written; comparing a
      number with a function is false. */
  predicate CompletedAsWritten(step: nat, v: StepValue) { v.Index? && step <= v.i }
  predicate CurrentAsWritten(step: nat, v: StepValue) { v.Index? && step == v.i }

  /** A report whose status is "constructor" shows no completed step and no
      current step. */
  lemma InheritedStatusShowsNoStep()
    ensures var v := StepIndexAsWritten(Some("constructor"));
      forall k :: 0 <= k < |Steps| ==> !CompletedAsWritten(k, v) && !CurrentAsWritten(k, v)
  {
    assert "constructor" in InheritedNames;
  }
}
