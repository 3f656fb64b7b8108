/** The status line shown for the active stage. The lookup goes through
    JavaScript's `||`, which skips both `undefined` and the empty string;
    here a value that may be `undefined` is an `Option<string>`. */
module StepStatus {
  import opened Catalog

  datatype Option<+T> = None | Some(value: T)

  /** JavaScript truthiness of a string-or-undefined value. */
  predicate Truthy(v: Option<string>)
  {
    v.Some? && v.value != ""
  }

  /** `a || b` on string-or-undefined values. */
  function OrElse(a: Option<string>, b: Option<string>): (r: Option<string>)
    ensures Truthy(a) ==> r == a
    ensures !Truthy(a) ==> r == b
    ensures Truthy(r) <==> Truthy(a) || Truthy(b)
  {
    if Truthy(a) then a else b
  }

  /** `a || ""`: a string in every case. */
  function OrEmpty(a: Option<string>): (r: string)
    ensures r != "" <==> Truthy(a)
    ensures a.Some? ==> r == a.value
  {
    if Truthy(a) then a.value else ""
  }

  /** `stepKeys[i]`: undefined outside the array. */
  function KeyAt(i: int): (r: Option<StepKey>)
    ensures r.Some? <==> 0 <= i < |Steps|
    ensures r.Some? ==> KeyName(r.value) == Steps[i].id
  {
    if 0 <= i < |StepKeys| then Some(StepKeys[i]) else None
  }

  /** `steps[i]?.details[0]`: undefined when the stage or its first detail
      line does not exist. */
  function FirstDetail(i: int): (r: Option<string>)
    ensures r.Some? <==> 0 <= i < |Steps|
    ensures r.Some? ==> Truthy(r) && r.value == Steps[i].details[0]
  {
    if 0 <= i < |Steps| && |Steps[i].details| > 0 then Some(Steps[i].details[0]) else None
  }

  /** The status text of stage `stepIndex` under the selected case. Stages
      with a per-case entry show it, falling back to the first detail line
      and then to the empty string; the upload stage shows its first detail
      line; an index outside the stage table yields the empty string. */
  function StepStats(stepIndex: int, c: CaseKey): (r: string)
    ensures stepIndex == 0 ==> r == Steps[0].details[0]
    ensures 1 <= stepIndex < |Steps| ==> r == Stats(c, StepKeys[stepIndex])
    ensures r != "" <==> 0 <= stepIndex < |Steps|
  {
    var key := KeyAt(stepIndex);
    if key.Some? && key.value in StatsKeys then
      OrEmpty(OrElse(Some(Stats(c, key.value)), FirstDetail(stepIndex)))
    else
      OrEmpty(FirstDetail(stepIndex))
  }

  /** The first-detail fallback behind a keyed stage is never reached: the
      per-case entry is always truthy, so the status is that entry and not
      the stage's own detail line. */
  lemma KeyedFallbackUnused(stepIndex: int, c: CaseKey)
    requires 1 <= stepIndex < |Steps|
    ensures KeyAt(stepIndex).Some? && KeyAt(stepIndex).value in StatsKeys
    ensures Truthy(Some(Stats(c, StepKeys[stepIndex])))
    ensures StepStats(stepIndex, c) != Steps[stepIndex].details[0]
  {
  }

  /** The selected case only matters for the keyed stages: on the upload
      stage and outside the table every case yields the same text. */
  lemma StatusCaseIndependentOffKeys(stepIndex: int, c1: CaseKey, c2: CaseKey)
    requires stepIndex == 0 || stepIndex < 0 || stepIndex >= |Steps|
    ensures StepStats(stepIndex, c1) == StepStats(stepIndex, c2)
  {
  }
}
