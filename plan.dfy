/**
 * The savings calculator's state as a value, and the three edit handlers
 * as pure transitions on it.
 *
 * Numbers are modelled as `real`. The source guards every recomputed
 * quotient with `isFinite(q) ? q : 0`; over the reals the only way for a
 * quotient of two numbers to be undefined is a zero divisor, so the guard
 * becomes "divisor is zero, store 0" (`DivOrZero`). IEEE-754 overflow,
 * NaN operands and rounding are not modelled.
 */
module SavingsPlan {

  /** Which field the calculator derived most recently (`calculatedField`).
      `None` is the initial `null`; `Goal` is a value the view tests for
      but that no handler ever stores. */
  datatype Derived = None | Contribution | Duration | Goal

  /** The calculator's whole state. */
  datatype Plan = Plan(goal: real, contribution: real, duration: real, calculated: Derived)

  /** One user edit: the field edited and the number entered for it. */
  datatype Edit = GoalEdit(value: real) | ContributionEdit(value: real) | DurationEdit(value: real)

  const INITIAL_GOAL: real := 10000.0
  const INITIAL_CONTRIBUTION: real := 250.0
  const INITIAL_DURATION: real := 40.0

  /** The state the calculator starts in: its three numbers already agree
      (250 * 40 == 10000) and no field is marked as calculated. */
  function Initial(): (p: Plan)
    ensures Balanced(p) && p.calculated == None
  {
    Plan(INITIAL_GOAL, INITIAL_CONTRIBUTION, INITIAL_DURATION, None)
  }

  /** `a / b` where that is finite, and 0 where it is not (a zero divisor). */
  function DivOrZero(a: real, b: real): (q: real)
    ensures b != 0.0 ==> q * b == a
    ensures b == 0.0 ==> q == 0.0
  {
    if b != 0.0 then a / b else 0.0
  }

  /** The field that an edit leaves unchanged and divides by. */
  function Divisor(p: Plan, e: Edit): real {
    match e
    case GoalEdit(_) => p.duration
    case ContributionEdit(v) => v
    case DurationEdit(v) => v
  }

  /** The marker an edit sets. */
  function DerivedBy(e: Edit): Derived {
    match e
    case GoalEdit(_) => Contribution
    case ContributionEdit(_) => Duration
    case DurationEdit(_) => Contribution
  }

  /** One handler run against the current state:
      a goal edit holds the duration and recomputes the contribution,
      a contribution edit holds the goal and recomputes the duration,
      a duration edit holds the goal and recomputes the contribution.
      Whatever the state before, the numbers afterwards agree or the
      guarded division fell back to 0, and the marker names a field the
      edit derived, never the goal. */
  function Step(p: Plan, e: Edit): (r: Plan)
    ensures Settled(r)
    ensures r.calculated != Goal && r.calculated != None
  {
    match e
    case GoalEdit(v) =>
      Plan(v, DivOrZero(v, p.duration), p.duration, Contribution)
    case ContributionEdit(v) =>
      Plan(p.goal, v, DivOrZero(p.goal, v), Duration)
    case DurationEdit(v) =>
      Plan(p.goal, DivOrZero(p.goal, v), v, Contribution)
  }

  /** The state after a sequence of edits, handled one at a time in order. */
  function Run(p: Plan, edits: seq<Edit>): Plan
    decreases |edits|
  {
    if edits == [] then p else Run(Step(p, edits[0]), edits[1..])
  }

  /** The relation the calculator keeps between its three numbers. */
  predicate Balanced(p: Plan) {
    p.contribution * p.duration == p.goal
  }

  /** Balanced, or else the guarded division fell back to 0, which leaves
      both contribution and duration at 0. */
  predicate Settled(p: Plan) {
    Balanced(p) || (p.contribution == 0.0 && p.duration == 0.0)
  }

  /** The values entered in the goal edits of a sequence, in order. */
  function GoalValues(edits: seq<Edit>): (vs: seq<real>)
    ensures forall v :: v in vs <==> exists i :: 0 <= i < |edits| && edits[i] == GoalEdit(v)
    decreases |edits|
  {
    if edits == [] then []
    else (if edits[0].GoalEdit? then [edits[0].value] else []) + GoalValues(edits[1..])
  }

  /** The last element of `s`, or `otherwise` when `s` is empty. */
  function LastOr(otherwise: real, s: seq<real>): real {
    if s == [] then otherwise else s[|s| - 1]
  }

  // ---------------------------------------------------------------------
  // Properties of a single edit
  // ---------------------------------------------------------------------

  /** Each edit stores the entered value in its own field, keeps the held
      field, recomputes the third through the guarded division and marks
      the recomputed field. */
  lemma StepEffect(p: Plan, e: Edit)
    ensures var r := Step(p, e);
      match e
      case GoalEdit(v) =>
        r.goal == v && r.duration == p.duration && r.calculated == Contribution
        && (p.duration != 0.0 ==> r.contribution * p.duration == v)
        && (p.duration == 0.0 ==> r.contribution == 0.0)
      case ContributionEdit(v) =>
        r.contribution == v && r.goal == p.goal && r.calculated == Duration
        && (v != 0.0 ==> v * r.duration == p.goal)
        && (v == 0.0 ==> r.duration == 0.0)
      case DurationEdit(v) =>
        r.duration == v && r.goal == p.goal && r.calculated == Contribution
        && (v != 0.0 ==> r.contribution * v == p.goal)
        && (v == 0.0 ==> r.contribution == 0.0)
  {
  }

  /** Whatever the state before, the state after an edit is settled, and it
      is balanced exactly when the divisor was nonzero or the goal is 0. */
  lemma StepSettles(p: Plan, e: Edit)
    ensures Settled(Step(p, e))
    ensures Balanced(Step(p, e)) <==> Divisor(p, e) != 0.0 || Step(p, e).goal == 0.0
  {
  }

  /** A zero divisor makes the recomputed field 0, never undefined. */
  lemma StepFallback(p: Plan, e: Edit)
    requires Divisor(p, e) == 0.0
    ensures DerivedBy(e) == Contribution ==> Step(p, e).contribution == 0.0
    ensures DerivedBy(e) == Duration ==> Step(p, e).duration == 0.0
  {
  }

  /** No edit derives the goal. */
  lemma StepNeverDerivesGoal(p: Plan, e: Edit)
    ensures Step(p, e).calculated == DerivedBy(e)
    ensures Step(p, e).calculated != Goal && Step(p, e).calculated != None
  {
  }

  /** Only a goal edit changes the goal. */
  lemma StepKeepsGoal(p: Plan, e: Edit)
    requires !e.GoalEdit?
    ensures Step(p, e).goal == p.goal
  {
  }

  /** Repeating an edit changes nothing: the field it holds is one it did
      not change. */
  lemma StepIdempotent(p: Plan, e: Edit)
    ensures Step(Step(p, e), e) == Step(p, e)
  {
  }

  /** From the initial state, entering a goal of 20000 keeps the duration
      at 40 and derives a contribution of 500. */
  lemma GoalEditFromInitial()
    ensures Step(Initial(), GoalEdit(20000.0)) == Plan(20000.0, 500.0, 40.0, Contribution)
  {
  }

  // ---------------------------------------------------------------------
  // Properties of a sequence of edits
  // ---------------------------------------------------------------------

  /** Running more edits is running the first ones, then the rest. */
  lemma {:induction false} RunAppend(p: Plan, xs: seq<Edit>, ys: seq<Edit>)
    ensures Run(p, xs + ys) == Run(Run(p, xs), ys)
    decreases |xs|
  {
    if xs == [] {
      assert xs + ys == ys;
    } else {
      assert (xs + ys)[1..] == xs[1..] + ys;
      RunAppend(Step(p, xs[0]), xs[1..], ys);
    }
  }

  /** After a nonempty sequence of edits, the state is the last edit applied
      to the state before it. */
  lemma RunLast(p: Plan, edits: seq<Edit>)
    requires edits != []
    ensures Run(p, edits) == Step(Run(p, edits[..|edits| - 1]), edits[|edits| - 1])
  {
    var n := |edits| - 1;
    assert edits == edits[..n] + [edits[n]];
    RunAppend(p, edits[..n], [edits[n]]);
  }

  /** The marker after a nonempty sequence of edits names the field the
      last edit derived. */
  lemma RunMarksLastEdit(p: Plan, edits: seq<Edit>)
    requires edits != []
    ensures Run(p, edits).calculated == DerivedBy(edits[|edits| - 1])
  {
    RunLast(p, edits);
  }

  /** Starting from the initial state, the marker is never `Goal`, so the
      goal's "Calculated" badge is never shown; it stays `None` only while
      nothing has been edited. */
  lemma RunNeverMarksGoal(edits: seq<Edit>)
    ensures Run(Initial(), edits).calculated != Goal
    ensures Run(Initial(), edits).calculated == None <==> edits == []
  {
    if edits != [] {
      RunMarksLastEdit(Initial(), edits);
    }
  }

  /** Settled states stay settled under any sequence of edits; in
      particular every state reachable from the initial one is settled. */
  lemma {:induction false} RunSettled(p: Plan, edits: seq<Edit>)
    requires Settled(p)
    ensures Settled(Run(p, edits))
    decreases |edits|
  {
    if edits != [] {
      StepSettles(p, edits[0]);
      RunSettled(Step(p, edits[0]), edits[1..]);
    }
  }

  /** The goal is the value of the last goal edit, or the starting goal if
      there was none: contribution and duration edits never change it. */
  lemma {:induction false} RunGoal(p: Plan, edits: seq<Edit>)
    ensures Run(p, edits).goal == LastOr(p.goal, GoalValues(edits))
    decreases |edits|
  {
    if edits != [] {
      var e := edits[0];
      var first := if e.GoalEdit? then [e.value] else [];
      var rest := GoalValues(edits[1..]);
      assert GoalValues(edits) == first + rest;
      RunGoal(Step(p, e), edits[1..]);
      if rest != [] {
        assert (first + rest)[|first + rest| - 1] == rest[|rest| - 1];
      }
    }
  }

  /** Repeating the last edit of any sequence changes nothing. */
  lemma RunRepeatLast(p: Plan, edits: seq<Edit>)
    requires edits != []
    ensures Run(p, edits + [edits[|edits| - 1]]) == Run(p, edits)
  {
    var e := edits[|edits| - 1];
    RunAppend(p, edits, [e]);
    RunLast(p, edits);
    StepIdempotent(Run(p, edits[..|edits| - 1]), e);
  }
}
