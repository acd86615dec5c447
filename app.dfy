/**
 * The `App` component's state and its three change handlers. Each handler
 * is one atomic transition that reads the current state, stores the value
 * the user entered, recomputes one other field and sets the marker.
 */
module App {
  import opened SavingsPlan

  class Calculator {
    var goal: real
    var contribution: real
    var duration: real
    var calculatedField: Derived

    /** The current state as a value. */
    function State(): Plan
      reads this
    {
      Plan(goal, contribution, duration, calculatedField)
    }

    /** The state the component mounts with. */
    constructor ()
      ensures State() == Initial()
      ensures Settled(State())
    {
      goal := INITIAL_GOAL;
      contribution := INITIAL_CONTRIBUTION;
      duration := INITIAL_DURATION;
      calculatedField := None;
    }

    /** The goal was edited: keep the duration, recompute the contribution. */
    method HandleGoalChange(newGoal: real)
      modifies this
      ensures goal == newGoal && duration == old(duration)
      ensures old(duration) != 0.0 ==> contribution * duration == goal
      ensures old(duration) == 0.0 ==> contribution == 0.0
      ensures calculatedField == Contribution
      ensures State() == Step(old(State()), GoalEdit(newGoal))
      ensures Settled(State())
    {
      goal := newGoal;
      var newContribution := DivOrZero(newGoal, duration);
      contribution := newContribution;
      calculatedField := Contribution;
    }

    /** The contribution was edited: keep the goal, recompute the duration. */
    method HandleContributionChange(newContribution: real)
      modifies this
      ensures contribution == newContribution && goal == old(goal)
      ensures newContribution != 0.0 ==> contribution * duration == goal
      ensures newContribution == 0.0 ==> duration == 0.0
      ensures calculatedField == Duration
      ensures State() == Step(old(State()), ContributionEdit(newContribution))
      ensures Settled(State())
    {
      contribution := newContribution;
      var newDuration := DivOrZero(goal, newContribution);
      duration := newDuration;
      calculatedField := Duration;
    }

    /** The duration was edited: keep the goal, recompute the contribution. */
    method HandleDurationChange(newDuration: real)
      modifies this
      ensures duration == newDuration && goal == old(goal)
      ensures newDuration != 0.0 ==> contribution * duration == goal
      ensures newDuration == 0.0 ==> contribution == 0.0
      ensures calculatedField == Contribution
      ensures State() == Step(old(State()), DurationEdit(newDuration))
      ensures Settled(State())
    {
      duration := newDuration;
      var newContribution := DivOrZero(goal, newDuration);
      contribution := newContribution;
      calculatedField := Contribution;
    }
  }
}
