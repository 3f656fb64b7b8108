# Car-damage pipeline diagram: step engine

This project models the step engine behind the animated pipeline diagram of
the car-damage web UI. The diagram shows five main stages: upload,
detection, re-identification, before/after comparison and decision. Below
the last stage it shows three outcome cases: existing damage, new damage and
no damage. A ball moves down the stages and then to the selected case.

The engine state is `(currentStep, isAnimating, selectedCase)`.

- `currentStep` cycles through 0..4 (the main stages) and 5 (the single branch state).
- A periodic timer advances the step while the animation runs.
- The user can pause or play, reset, and pick a case.
- Two pure functions read the state: the ball position and the status line of the active stage.

Modules:

- `Catalog` (`catalog.dfy`): the static tables. These are the stages with their detail lines and node heights, the cases with their branch end points, and the per-case status strings.
- `StepStatus` (`stats.dfy`): the status lookup, including JavaScript's `||` fallback. `||` skips both `undefined` and `""`; a possibly-undefined value is an `Option<string>`.
- `Position` (`position.dfy`): the ball position.
- `Controller` (`controller.dfy`): the state and its four transitions, and traces of events.

The engine has a single counter that wraps from the branch state back to
the first stage. There is no per-branch progress counter, no settle delay
after the branch and no sequence of merge stages; the one branch state lasts
a single tick, like any main stage.

`currentStep` is a JavaScript number. It is modelled as a `nat` because it
starts at 0 and is only ever set to 0 or to its previous value plus one.

## Model

| member | source | states |
|---|---|---|
| Catalog.StepTablesAgree | src/app/flow.tsx:148-156 | the key list names the five stages in table order; every stage has a first detail line; exactly the stages other than upload pass the membership test of the status lookup |
| Catalog.StepsDescend | src/app/flow.tsx:21-61 | stage node heights strictly increase with the stage index |
| Catalog.BranchXInjective | src/app/flow.tsx:63-85 | two cases share a branch end point exactly when they are the same case |
| Catalog.Cases | src/app/flow.tsx:63-85 | the three case end points are spaced evenly, 150 apart, in table order starting at x = 200; every case has a name, a colour and a message |
| Catalog.Stats | src/app/flow.tsx:127-146 | every per-case status entry is non-empty, so the `||` fallback behind it is dead; each entry also opens with a digit |
| StepStatus.OrElse | src/app/flow.tsx:158-159 | `a \|\| b` is `a` when `a` is truthy and `b` otherwise; it is truthy exactly when `a` or `b` is |
| StepStatus.KeyAt | src/app/flow.tsx:155 | `stepKeys[i]` is defined exactly for indices inside the stage table, and there it names that stage's identifier |
| StepStatus.FirstDetail | src/app/flow.tsx:159 | `steps[i]?.details[0]` is defined exactly for indices inside the stage table, and there it is that stage's first detail line, which is non-empty |
| StepStatus.OrEmpty | src/app/flow.tsx:163 | `a \|\| ""` is always a string; it is non-empty exactly when `a` is truthy, and it is `a` whenever `a` is defined |
| StepStatus.StepStats | src/app/flow.tsx:126-164 | total for any index: index 0 gives the upload stage's first detail line; indices 1..4 give the selected case's entry for that stage; the result is empty exactly when the index is outside the stage table |
| StepStatus.KeyedFallbackUnused | src/app/flow.tsx:156-161 | for indices 1..4 the key passes the membership test and the case entry is truthy, so the stage's own detail line is never the answer |
| StepStatus.StatusCaseIndependentOffKeys | src/app/flow.tsx:155-163 | on the upload stage and outside the table, the text is the same whichever case is selected |
| Position.BallPosition | src/app/flow.tsx:104-118 | below step 5 the ball is on the centre line at that stage's height, so the 530 fallback is never used; from step 5 on it is at the selected case's end point at height 580 |
| Position.BallOnActiveNode | src/app/flow.tsx:104-118 | the ball is always at the centre of a drawn node: the active stage's node, or in the branch state the selected case's end point; its height is never 530 |
| Position.BallDescendsMainLine | src/app/flow.tsx:104-110 | on the main line the ball stays at x = 350 whatever the case, and moves strictly down as the step grows |
| Position.BallPositionInjective | src/app/flow.tsx:104-118 | over steps 0..5, equal ball positions mean equal steps, and in the branch state also equal cases |
| Controller.Init | src/app/flow.tsx:17-19 | the mount state is at step 0, animating (so the interval is armed), with the new-damage case selected; its step is in 0..5 |
| Controller.NextStep | src/app/flow.tsx:92-98 | the next step is always in 0..5; inside the cycle it is the previous step plus one modulo 6; out-of-range values go back to 0 |
| Controller.Tick | src/app/flow.tsx:88-102 | a tick while paused changes nothing; while animating it moves the step one place round the six-value cycle; it never touches the flag or the case |
| Controller.TogglePlay | src/app/flow.tsx:395 | Pause/Play flips the animation flag and leaves the step and the case alone |
| Controller.Reset | src/app/flow.tsx:405 | Reset puts the step at 0 and leaves the flag and the case alone |
| Controller.SelectCase | src/app/flow.tsx:371 | selecting a case sets it and leaves the step and the flag alone |
| Controller.TicksAdvance | src/app/flow.tsx:91-99 | while animating, n ticks move the step to (step + n) mod 6 and change nothing else |
| Controller.PausedTicksIdle | src/app/flow.tsx:88-89 | while paused, any number of ticks leaves the state unchanged |
| Controller.SixTicksReturn | src/app/flow.tsx:92-98 | six ticks bring an animating state back to itself |
| Controller.TicksToBranch | src/app/flow.tsx:92-98 | from stage i it takes exactly 5 - i ticks to reach the branch state, and no fewer |
| Controller.PauseResumeTransparent | src/app/flow.tsx:395 | Pause then Play gives back the same state; however many timer firings arrive while paused, the ticks after Play are the same as without the pause |
| Controller.SelectCommutes | src/app/flow.tsx:371 | selecting a case commutes with ticks, Reset and Pause/Play |
| Controller.ResetThenTicks | src/app/flow.tsx:405 | Reset is idempotent; while animating, n ticks after a Reset reach step n mod 6 |
| Controller.ViewIgnoresAnimation | src/app/flow.tsx:104-164 | the status text and the ball position do not depend on the animation flag |
| Controller.ApplyPreservesValid | src/app/flow.tsx:92-98 | every event keeps the step in 0..5 |
| Controller.RunPreservesValid | src/app/flow.tsx:17-19 | starting from a step in 0..5, which includes the mount state, every sequence of events keeps the step in 0..5 |
| Controller.ReachableView | src/app/flow.tsx:17-19 | in every state reachable from mount, the ball is on the active node, and the status lookup yields "" exactly at step 5, where no status box is drawn |
| Controller.RunSelectedCase | src/app/flow.tsx:371 | after any events, the selected case is the last case chosen, or the initial one if none was chosen |
| Controller.RunAnimationFlag | src/app/flow.tsx:395 | after any events, the animation flag is flipped exactly when Pause/Play was pressed an odd number of times |
| Controller.Simulate | src/app/flow.tsx:88-102 | handling events one at a time gives the same state as `Run`, keeps the step in 0..5, and ends with the last case selected |

## Left out

- Wall-clock timing: the 2000 ms interval period, CSS transition durations and the exact firing times are not modelled. A tick is an abstract event that the engine handles only while the animation flag is set. The interval is cleared whenever the flag changes and re-armed when it turns true, so a pause/play restarts the 2000 ms wait. The model does not show this because it has no clock.
- Interval cleanup on unmount: it is a side effect with no observable state in the engine.
- SVG/JSX rendering: colours, icons, opacity, class names, labels and the info box are not modelled. The node centres are modelled only to say where the ball lands.
- The case table's colour, name and message are included as data; the only thing proved about them is that each is non-empty. Colours and labels are used only by the rendering.
- `src/app/page.tsx`: the upload form, object-URL previews, `FormData` assembly, `fetch` calls to the remote detection/comparison service and the retry-polling loop. These are network I/O and asynchronous plumbing around the engine.
- Negative or fractional step values: JavaScript would accept them, but the step can never hold one. For a negative value `getBallPosition` would read `.y` of `steps[-1]`, which is `undefined`, and throw a TypeError.
