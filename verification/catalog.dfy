/** The static tables of the car-damage pipeline diagram: the five main
    stages drawn down the centre line, the three outcome cases drawn as
    branch end points, and the per-case status strings shown for the
    active stage. Pure data; every other module reads it. */
module Catalog {

  /** The closed set of outcome cases a viewer can select. */
  datatype CaseKey = Case1 | Case2 | Case3

  /** One main stage: its identifier, title, detail lines and the vertical
      coordinate of its node on the diagram. The icon is presentation only
      and is not modelled. */
  datatype Stage = Stage(id: string, title: string, details: seq<string>, y: int)

  /** Display metadata of one outcome case; `branchX` is the horizontal
      coordinate of the case's end point. */
  datatype CaseInfo = CaseInfo(name: string, color: string, message: string, branchX: int)

  /** The main stages, in pipeline order. */
  const Steps: seq<Stage> := [
    Stage("upload", "Upload Images",
          ["6 Before positions - 6 After positions"], 80),
    Stage("detection", "YOLOv12 Detection",
          ["Process all 12 images", "Extract bounding boxes", "Confidence filtering"], 180),
    Stage("reid", "ReID Deduplication",
          ["Cross-view matching", "CLIP features", "Remove duplicates"], 280),
    Stage("comparison", "Before/After Analysis",
          ["Match damages", "Find new/repaired", "Calculate statistics"], 380),
    Stage("decision", "Case Decision",
          ["Determine final case", "Generate report"], 480)
  ]

  /** The step counter value after the last main stage: the single branch
      state, in which the ball sits at the selected case's end point. The
      counter cycles through 0 ..= BranchStep. */
  const BranchStep: nat := 5

  /** Position of a case in the case table, in declaration order. */
  function CaseIndex(c: CaseKey): nat
  {
    match c
    case Case1 => 0
    case Case2 => 1
    case Case3 => 2
  }

  /** The case table, indexed by the closed key set. The end points are
      spaced evenly, 150 apart, in table order, and every case is labelled. */
  function Cases(c: CaseKey): (r: CaseInfo)
    ensures r.branchX == 200 + 150 * CaseIndex(c)
    ensures r.name != "" && r.color != "" && r.message != ""
  {
    match c
    case Case1 => CaseInfo("EXISTING DAMAGE", "#f59e0b", "Pre-existing \U{2192} Delivery OK", 200)
    case Case2 => CaseInfo("NEW DAMAGE", "#ef4444", "New damage detected!", 350)
    case Case3 => CaseInfo("SUCCESS", "#10b981", "No damage found", 500)
  }

  /** Keys naming the main stages, used to index the status table. */
  datatype StepKey = Upload | Detection | Reid | Comparison | Decision

  /** The stages that have a per-case status entry: every stage but upload. */
  type StatsKey = k: StepKey | k != Upload witness Detection

  /** The stage keys in pipeline order, parallel to `Steps`. */
  const StepKeys: seq<StepKey> := [Upload, Detection, Reid, Comparison, Decision]

  /** The keys accepted by the membership test in front of the status table. */
  const StatsKeys: seq<StepKey> := [Detection, Reid, Comparison, Decision]

  /** The textual identifier a key stands for. */
  function KeyName(k: StepKey): string
  {
    match k
    case Upload => "upload"
    case Detection => "detection"
    case Reid => "reid"
    case Comparison => "comparison"
    case Decision => "decision"
  }

  /** The per-case status string of one stage: never empty (so the status
      lookup never falls back past it), and opening with a digit. */
  function Stats(c: CaseKey, k: StatsKey): (r: string)
    ensures r != ""
    ensures '0' <= r[0] <= '9'
  {
    match c
    case Case1 =>
      if k == Detection then "12 total detections"
      else if k == Reid then "2 unique damages"
      else if k == Comparison then "2 before, 2 after"
      else "0 new damages"
    case Case2 =>
      if k == Detection then "18 total detections"
      else if k == Reid then "4 unique damages"
      else if k == Comparison then "1 before, 3 after"
      else "2 new damages"
    case Case3 =>
      if k == Detection then "0 total detections"
      else if k == Reid then "0 unique damages"
      else if k == Comparison then "0 before, 0 after"
      else "0 new damages"
  }

  /** Every stage has at least one detail line and the key list names the
      stages in the same order as the stage table. */
  lemma StepTablesAgree()
    ensures |StepKeys| == |Steps| == 5
    ensures forall i :: 0 <= i < |Steps| ==> |Steps[i].details| > 0
    ensures forall i :: 0 <= i < |Steps| ==> KeyName(StepKeys[i]) == Steps[i].id
    ensures forall i :: 0 <= i < |Steps| ==> (StepKeys[i] in StatsKeys <==> i != 0)
  {
  }

  /** Going down the pipeline, the stage nodes are drawn strictly lower. */
  lemma StepsDescend(i: int, j: int)
    requires 0 <= i < j < |Steps|
    ensures Steps[i].y < Steps[j].y
  {
  }

  /** The three case end points sit at pairwise distinct horizontal
      positions, so the selected case determines where the ball lands. */
  lemma BranchXInjective(c1: CaseKey, c2: CaseKey)
    ensures Cases(c1).branchX == Cases(c2).branchX <==> c1 == c2
  {
  }
}
