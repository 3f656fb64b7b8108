/** Where the animated ball is drawn: on the centre line at the node of the
    current main stage, or at the end point of the selected case once the
    step counter reaches the branch state. */
module Position {
  import opened Catalog

  datatype Point = Point(x: int, y: int)

  /** Horizontal coordinate of the centre line carrying the main stages. */
  const MainLineX: int := 350
  /** Vertical coordinate shared by the three case end points. */
  const BranchY: int := 580
  /** Vertical coordinate used for a main-line step with no stage node. */
  const MainFallbackY: int := 530
  /** The ball's position for a step counter value and a selected case. */
  function BallPosition(step: nat, c: CaseKey): (p: Point)
    ensures step < BranchStep ==> p == Point(MainLineX, Steps[step].y)
    ensures step >= BranchStep ==> p == Point(Cases(c).branchX, BranchY)
  {
    if step < BranchStep then
      Point(MainLineX, if step < |Steps| then Steps[step].y else MainFallbackY)
    else
      Point(Cases(c).branchX, BranchY)
  }

  /** Centre of the node drawn for main stage `i`. */
  function StageNodeCentre(i: nat): Point
    requires i < |Steps|
  {
    Point(MainLineX, Steps[i].y)
  }

  /** Centre of the end point drawn for case `c`. */
  function CaseNodeCentre(c: CaseKey): Point
  {
    Point(Cases(c).branchX, BranchY)
  }

  /** The ball always sits on a drawn node: the active stage's node while
      the step names a stage, the selected case's end point otherwise. The
      main-line fallback coordinate is never used. */
  lemma BallOnActiveNode(step: nat, c: CaseKey)
    ensures step < |Steps| ==> BallPosition(step, c) == StageNodeCentre(step)
    ensures step >= |Steps| ==> BallPosition(step, c) == CaseNodeCentre(c)
    ensures BallPosition(step, c).y != MainFallbackY
  {
  }

  /** On the main line the ball moves strictly downward as the step grows
      and does not depend on the selected case. */
  lemma BallDescendsMainLine(i: nat, j: nat, c1: CaseKey, c2: CaseKey)
    requires i < j < BranchStep
    ensures BallPosition(i, c1).x == BallPosition(j, c2).x == MainLineX
    ensures BallPosition(i, c1).y < BallPosition(j, c2).y
  {
    StepsDescend(i, j);
  }

  /** Over the six step values the position can be decoded back: equal
      positions mean equal steps, and on the branch also equal cases. */
  lemma BallPositionInjective(s1: nat, c1: CaseKey, s2: nat, c2: CaseKey)
    requires s1 <= BranchStep && s2 <= BranchStep
    requires BallPosition(s1, c1) == BallPosition(s2, c2)
    ensures s1 == s2
    ensures s1 == BranchStep ==> c1 == c2
  {
    if s1 < BranchStep && s2 < BranchStep {
      if s1 < s2 {
        StepsDescend(s1, s2);
      } else if s2 < s1 {
        StepsDescend(s2, s1);
      }
    }
    if s1 == BranchStep && s2 == BranchStep {
      BranchXInjective(c1, c2);
    }
  }
}
