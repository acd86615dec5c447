# Savings calculator: the three-field state machine

The savings calculator keeps three linked numbers: a savings goal, a monthly
contribution and a duration in months, related by
`goal = contribution × duration`. It starts at goal 10000, contribution 250
and duration 40, with no field marked as calculated. Each of the three input
controls has a change handler. The handler stores the number the user entered
in its own field and recomputes one other field from it. It keeps the third
field unchanged and records which field it derived, so the view can show a
"Calculated" badge on it:

- a goal edit holds the duration and derives the contribution (`goal / duration`);
- a contribution edit holds the goal and derives the duration (`goal / contribution`);
- a duration edit holds the goal and derives the contribution (`goal / duration`).

Every quotient goes through the same guard: a quotient that is not finite is
stored as 0. No handler ever derives the goal, so the view's test for a
calculated goal never succeeds.

The project has two modules:

- `SavingsPlan` (`plan.dfy`) holds the state as a value (`Plan`) and the user
  edits as a datatype (`Edit`). Each handler is a pure transition, `Step`. A
  sequence of edits handled in order is `Run`. The module also holds the
  lemmas about these: what one edit does, and what holds after any sequence of
  edits.
- `App` (`app.dfy`) holds the component as a class, `Calculator`. Its four
  mutable fields are the component's four state variables. Its constructor
  gives the initial state. There is one method per handler, and each method
  updates the fields one at a time, in the order the source calls its
  setters. Each method's contract says what every field is afterwards. It
  also ties the new state to `Step` applied to the old state, so the lemmas
  about `Step` and `Run` apply to the class as well.

Numbers are `real`. Over the reals, `a / b` has no value only when `b` is 0,
so the source's `isFinite(a / b) ? a / b : 0` is modelled as `DivOrZero(a, b)`:
`a / b` when `b != 0`, else 0. The value a handler receives, `Number(e.target.value)`,
is a parameter of the method.

The model proves one invariant that holds after every edit, from any starting
state. Either `contribution × duration == goal`, or the guard fell back and
both contribution and duration are 0. No single line of the source states it.
The initial state satisfies it too, because 250 × 40 = 10000.

`src/App.js` has no reset, no manual recalculation, no auto-calculate toggle
and no goal-seeking mode, and the handlers' dispatch is fixed. The model has
only the three handlers.

## Model

| member | source | states |
|---|---|---|
| `SavingsPlan.DivOrZero` | src/App.js:201-202 | The guarded quotient used by all three handlers (also lines 210-211 and 219-220). When the divisor is nonzero, the result times the divisor gives back the dividend. When the divisor is 0, the result is 0 and never undefined. |
| `SavingsPlan.Initial` | src/App.js:189-194 | The state the calculator starts in: goal 10000, contribution 250, duration 40, marker `None`. Its contract says the three numbers already agree (250 × 40 = 10000) and no field is marked as calculated. |
| `SavingsPlan.Step` | src/App.js:197-222 | One handler as a pure transition. Its contract says that, from any state, the numbers afterwards are balanced or contribution and duration are both 0, and that the marker is never `Goal` and never empty. `StepEffect`, `StepSettles` and `StepIdempotent` state the rest of what it does. |
| `SavingsPlan.StepEffect` | src/App.js:197-222 | For each kind of edit: the entered value lands in its own field and the held field keeps its old value. The recomputed field solves `contribution × duration = goal` when the divisor is nonzero and is 0 when the divisor is 0. The marker names the recomputed field. |
| `SavingsPlan.StepSettles` | src/App.js:197-222 | After any edit, from any state, the numbers are balanced or contribution and duration are both 0. They are balanced exactly when the divisor was nonzero or the goal is 0. This covers both directions. |
| `SavingsPlan.StepFallback` | src/App.js:219-220 | When the divisor is 0, the recomputed field becomes 0. This holds for the contribution after a goal or duration edit and for the duration after a contribution edit (also lines 201-202 and 210-211). |
| `SavingsPlan.StepNeverDerivesGoal` | src/App.js:203-221 | An edit's marker is `Contribution` for goal and duration edits and `Duration` for contribution edits. It is never `Goal` and never the empty marker (lines 203, 212 and 221). |
| `SavingsPlan.StepKeepsGoal` | src/App.js:206-222 | Contribution and duration edits leave the goal unchanged. |
| `SavingsPlan.StepIdempotent` | src/App.js:197-222 | Applying the same edit twice in a row gives the same state as applying it once. |
| `SavingsPlan.GoalEditFromInitial` | src/App.js:197-204 | From the initial state, a goal edit to 20000 keeps the duration at 40, derives a contribution of 500 and marks the contribution. |
| `SavingsPlan.RunAppend` | src/App.js:197-222 | Handling `xs` and then `ys` reaches the same state as handling `xs + ys`. |
| `SavingsPlan.RunMarksLastEdit` | src/App.js:203-221 | After a nonempty sequence of edits, the marker names the field that the last edit derived. |
| `SavingsPlan.RunNeverMarksGoal` | src/App.js:240 | From the initial state, no sequence of edits sets the marker to `Goal`, so the goal's badge is never shown. The marker is empty exactly when nothing has been edited. |
| `SavingsPlan.RunSettled` | src/App.js:197-222 | Every sequence of edits preserves the settled invariant, so every state reachable from the initial one is settled. |
| `SavingsPlan.RunGoal` | src/App.js:197-222 | After any sequence of edits, the goal is the value of the last goal edit. It is the starting goal if the sequence has no goal edit. |
| `SavingsPlan.RunRepeatLast` | src/App.js:197-222 | Repeating the last edit of any nonempty sequence leaves the state unchanged. |
| `App.Calculator.constructor` | src/App.js:189-194 | The component starts at goal 10000, contribution 250, duration 40 and no marker. This state is settled. |
| `App.Calculator.HandleGoalChange` | src/App.js:197-204 | Stores the new goal and keeps the duration. Sets the contribution to the new goal over the duration, or to 0 when the duration is 0, and marks the contribution. The new state is `Step` of the old one and is settled. |
| `App.Calculator.HandleContributionChange` | src/App.js:206-213 | Stores the new contribution and keeps the goal. Sets the duration to the goal over the new contribution, or to 0 when that is 0, and marks the duration. The new state is `Step` of the old one and is settled. |
| `App.Calculator.HandleDurationChange` | src/App.js:215-222 | Stores the new duration and keeps the goal. Sets the contribution to the goal over the new duration, or to 0 when that is 0, and marks the contribution. The new state is `Step` of the old one and is settled. |

## Left out

- IEEE-754 detail is not modelled: a finite quotient that overflows to Infinity (which the source would store as 0), NaN operands (which the source would also store as 0), rounding error, and signed zero.
- `Number(e.target.value)` coercion from the input's text (an empty field gives 0) is left out. The handler methods take the resulting number as a parameter.
- React mechanics, `useState` batching and `useCallback` dependency lists, are left out. Each handler is one atomic transition that reads the current state.
- The styles, the JSX layout, the `InputControl` component with its focus state, and `Math.round` for display are left out. They affect only what is shown, not the stored state.
- The number inputs' and sliders' `min`/`max`/`step` attributes are not modelled. The handlers never clamp to them, so the model accepts any real input.
