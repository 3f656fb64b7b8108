/** The step engine of the pipeline diagram: a step counter cycling through
    the five main stages and the branch state, an animation flag, and the
    selected case. The periodic timer is abstracted to a Tick event that is
    delivered only while an interval is armed, which is exactly while the
    animation flag is set. */
module Controller {
  import opened Catalog
  import opened Position
  import opened StepStatus

  /** Number of distinct step values the counter cycles through. */
  const CycleLength: nat := BranchStep + 1

  datatype FlowState = FlowState(currentStep: nat, isAnimating: bool, selectedCase: CaseKey)

  /** The state at mount: first stage, animating, the new-damage case. */
  function Init(): (r: FlowState)
    ensures r.currentStep == 0 && Valid(r)
    ensures IntervalArmed(r) && r.selectedCase == Case2
  {
    FlowState(0, true, Case2)
  }

  /** Every reachable step value names a main stage or the branch state. */
  predicate Valid(s: FlowState)
  {
    s.currentStep <= BranchStep
  }

  /** The interval exists exactly while the animation flag is set: the
      effect returns without arming one when the flag is off, and clears
      the old one whenever the flag changes. */
  predicate IntervalArmed(s: FlowState)
  {
    s.isAnimating
  }

  /** The counter updater run by the interval. Whatever the previous value,
      the next one names a stage or the branch state; inside the cycle it is
      the successor modulo the cycle length. */
  function NextStep(prev: nat): (r: nat)
    ensures r <= BranchStep
    ensures prev <= BranchStep ==> r == (prev + 1) % CycleLength
    ensures prev > BranchStep ==> r == 0
  {
    if prev >= BranchStep then 0 else prev + 1
  }

  /** One firing of the periodic timer. */
  function Tick(s: FlowState): (r: FlowState)
    ensures !s.isAnimating ==> r == s
    ensures r.isAnimating == s.isAnimating && r.selectedCase == s.selectedCase
    ensures s.isAnimating ==> Valid(r)
    ensures s.isAnimating && Valid(s) ==> r.currentStep == (s.currentStep + 1) % CycleLength
  {
    if IntervalArmed(s) then s.(currentStep := NextStep(s.currentStep)) else s
  }

  /** The Pause/Play button. */
  function TogglePlay(s: FlowState): (r: FlowState)
    ensures r.isAnimating != s.isAnimating
    ensures r.currentStep == s.currentStep && r.selectedCase == s.selectedCase
  {
    s.(isAnimating := !s.isAnimating)
  }

  /** The Reset button. */
  function Reset(s: FlowState): (r: FlowState)
    ensures r.currentStep == 0 && Valid(r)
    ensures r.isAnimating == s.isAnimating && r.selectedCase == s.selectedCase
  {
    s.(currentStep := 0)
  }

  /** One of the case selector buttons. */
  function SelectCase(s: FlowState, c: CaseKey): (r: FlowState)
    ensures r.selectedCase == c
    ensures r.currentStep == s.currentStep && r.isAnimating == s.isAnimating
  {
    s.(selectedCase := c)
  }

  /** The ball position for a state. */
  function Ball(s: FlowState): Point
  {
    BallPosition(s.currentStep, s.selectedCase)
  }

  /** The status text for a state's current step. */
  function Status(s: FlowState): string
  {
    StepStats(s.currentStep, s.selectedCase)
  }

  /** `n` timer firings in a row. */
  function Ticks(s: FlowState, n: nat): FlowState
  {
    if n == 0 then s else Tick(Ticks(s, n - 1))
  }

  /** While animating, `n` ticks advance the counter by `n` modulo the
      cycle length and change nothing else. */
  lemma {:induction false} TicksAdvance(s: FlowState, n: nat)
    requires Valid(s) && s.isAnimating
    ensures Ticks(s, n) == s.(currentStep := (s.currentStep + n) % CycleLength)
  {
    if n > 0 {
      TicksAdvance(s, n - 1);
    }
  }

  /** While paused no tick changes anything. */
  lemma {:induction false} PausedTicksIdle(s: FlowState, n: nat)
    requires !s.isAnimating
    ensures Ticks(s, n) == s
  {
    if n > 0 {
      PausedTicksIdle(s, n - 1);
    }
  }

  /** Six ticks bring an animating state back to where it started. */
  lemma SixTicksReturn(s: FlowState)
    requires Valid(s) && s.isAnimating
    ensures Ticks(s, CycleLength) == s
  {
    TicksAdvance(s, CycleLength);
  }

  /** From main stage `i` it takes exactly `BranchStep - i` ticks to reach
      the branch state; no earlier tick reaches it. */
  lemma TicksToBranch(s: FlowState, k: nat)
    requires Valid(s) && s.isAnimating && s.currentStep < BranchStep
    ensures Ticks(s, BranchStep - s.currentStep).currentStep == BranchStep
    ensures k < BranchStep - s.currentStep ==> Ticks(s, k).currentStep < BranchStep
  {
    TicksAdvance(s, BranchStep - s.currentStep);
    TicksAdvance(s, k);
  }

  /** Pressing Pause then Play restores the state; however many timer
      firings arrive during the pause, the ticks after Play are the ones
      that would have followed without the pause. */
  lemma PauseResumeTransparent(s: FlowState, m: nat, n: nat)
    requires Valid(s) && s.isAnimating
    ensures TogglePlay(TogglePlay(s)) == s
    ensures Ticks(TogglePlay(Ticks(TogglePlay(s), m)), n) == Ticks(s, n)
  {
    PausedTicksIdle(TogglePlay(s), m);
  }

  /** The selected case never influences the counter: selecting commutes
      with ticks, and with Reset. */
  lemma SelectCommutes(s: FlowState, c: CaseKey)
    ensures Tick(SelectCase(s, c)) == SelectCase(Tick(s), c)
    ensures Reset(SelectCase(s, c)) == SelectCase(Reset(s), c)
    ensures TogglePlay(SelectCase(s, c)) == SelectCase(TogglePlay(s), c)
  {
  }

  /** Reset is idempotent and, while animating, `n` ticks after a reset
      land on step `n` modulo the cycle length. */
  lemma ResetThenTicks(s: FlowState, n: nat)
    requires s.isAnimating
    ensures Reset(Reset(s)) == Reset(s)
    ensures Ticks(Reset(s), n).currentStep == n % CycleLength
  {
    TicksAdvance(Reset(s), n);
  }

  /** The status text and the ball position read only the counter and the
      selected case, never the animation flag. */
  lemma ViewIgnoresAnimation(s: FlowState, b: bool)
    ensures Status(s.(isAnimating := b)) == Status(s)
    ensures Ball(s.(isAnimating := b)) == Ball(s)
    ensures Status(TogglePlay(s)) == Status(s) && Ball(TogglePlay(s)) == Ball(s)
  {
  }

  /** The user and timer events the component reacts to. */
  datatype Event = TickEvent | TogglePlayEvent | ResetEvent | SelectEvent(c: CaseKey)

  function Apply(s: FlowState, e: Event): FlowState
  {
    match e
    case TickEvent => Tick(s)
    case TogglePlayEvent => TogglePlay(s)
    case ResetEvent => Reset(s)
    case SelectEvent(c) => SelectCase(s, c)
  }

  /** The state after handling the events in order. */
  function Run(s: FlowState, es: seq<Event>): FlowState
    decreases |es|
  {
    if es == [] then s else Run(Apply(s, es[0]), es[1..])
  }

  /** Every event keeps the counter inside the cycle. */
  lemma ApplyPreservesValid(s: FlowState, e: Event)
    requires Valid(s)
    ensures Valid(Apply(s, e))
  {
  }

  /** Every state reachable from a valid one, in particular from the mount
      state, has its counter inside the cycle. */
  lemma {:induction false} RunPreservesValid(s: FlowState, es: seq<Event>)
    requires Valid(s)
    ensures Valid(Run(s, es))
    decreases |es|
  {
    if es != [] {
      ApplyPreservesValid(s, es[0]);
      RunPreservesValid(Apply(s, es[0]), es[1..]);
    }
  }

  /** In every state reachable from mount the ball sits on a drawn node,
      and the status lookup yields "" exactly at the branch step, where no
      status box is drawn. */
  lemma ReachableView(es: seq<Event>)
    ensures Valid(Run(Init(), es))
    ensures Run(Init(), es).currentStep < BranchStep ==>
              Ball(Run(Init(), es)) == StageNodeCentre(Run(Init(), es).currentStep)
    ensures Run(Init(), es).currentStep == BranchStep ==>
              Ball(Run(Init(), es)) == CaseNodeCentre(Run(Init(), es).selectedCase)
    ensures Status(Run(Init(), es)) == "" <==> Run(Init(), es).currentStep == BranchStep
  {
    var t := Run(Init(), es);
    RunPreservesValid(Init(), es);
    BallOnActiveNode(t.currentStep, t.selectedCase);
  }

  /** The case in effect after a sequence of events: the last one selected,
      or the initial one when none was. */
  function LastSelected(initial: CaseKey, es: seq<Event>): CaseKey
    decreases |es|
  {
    if es == [] then initial
    else if es[|es| - 1].SelectEvent? then es[|es| - 1].c
    else LastSelected(initial, es[..|es| - 1])
  }

  /** Number of Pause/Play presses in a sequence of events. */
  function Toggles(es: seq<Event>): nat
    decreases |es|
  {
    if es == [] then 0
    else (if es[0] == TogglePlayEvent then 1 else 0) + Toggles(es[1..])
  }

  lemma {:induction false} RunAppend(s: FlowState, es: seq<Event>, e: Event)
    ensures Run(s, es + [e]) == Apply(Run(s, es), e)
    decreases |es|
  {
    if es != [] {
      assert (es + [e])[1..] == es[1..] + [e];
      RunAppend(Apply(s, es[0]), es[1..], e);
    }
  }

  /** Only the case selector moves the selection: after any events it is the
      last case selected, or the initial one. */
  lemma {:induction false} RunSelectedCase(s: FlowState, es: seq<Event>)
    ensures Run(s, es).selectedCase == LastSelected(s.selectedCase, es)
    decreases |es|
  {
    if es != [] {
      var init := es[..|es| - 1];
      var last := es[|es| - 1];
      assert es == init + [last];
      RunAppend(s, init, last);
      RunSelectedCase(s, init);
    }
  }

  /** Only the Pause/Play button moves the animation flag: after any events
      it is flipped exactly when the button was pressed an odd number of
      times. */
  lemma {:induction false} RunAnimationFlag(s: FlowState, es: seq<Event>)
    ensures Run(s, es).isAnimating == (if Toggles(es) % 2 == 0 then s.isAnimating else !s.isAnimating)
    decreases |es|
  {
    if es != [] {
      RunAnimationFlag(Apply(s, es[0]), es[1..]);
    }
  }

  /** Handles a sequence of events one at a time, as the component does,
      and agrees with `Run`; from a valid state every intermediate state is
      valid too. */
  method Simulate(s: FlowState, es: seq<Event>) returns (t: FlowState)
    ensures t == Run(s, es)
    ensures Valid(s) ==> Valid(t)
    ensures t.selectedCase == LastSelected(s.selectedCase, es)
  {
    t := s;
    var i := 0;
    while i < |es|
      invariant 0 <= i <= |es|
      invariant Run(t, es[i..]) == Run(s, es)
      invariant Valid(s) ==> Valid(t)
      invariant t.selectedCase == LastSelected(s.selectedCase, es[..i])
    {
      assert es[..i + 1] == es[..i] + [es[i]];
      assert es[..i + 1][..i] == es[..i];
      assert es[i..][1..] == es[i + 1..];
      t := Apply(t, es[i]);
      i := i + 1;
    }
    assert es[i..] == [];
    assert es[..i] == es;
  }
}
