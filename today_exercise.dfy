/**
 * The "today's workout" view of src/components/ExerciseList/TodayExercise.tsx: the
 * effect that looks up the plan of the user's goal and, in it, the day named by
 * today's weekday, and the colour each difficulty badge gets.
 */
module TodayExercise {
  import opened Wrappers
  import opened Numerals
  import opened GoalExerciseService
  import opened WorkoutPlans
  import opened AuthContext

  /** The position `workoutSchedules.find(s => s.goal === goal)` stops at; `|plans|` when none matches. */
  function FirstPlan(plans: seq<WorkoutSchedule>, goal: string): (k: nat)
    ensures k <= |plans|
    ensures k < |plans| ==> plans[k].goal == goal
    ensures forall j :: 0 <= j < k ==> plans[j].goal != goal
    decreases |plans|
  {
    if plans == [] then 0
    else if plans[0].goal == goal then 0
    else 1 + FirstPlan(plans[1..], goal)
  }

  /** `plans.find(s => s.goal === goal)` */
  function FindPlan(plans: seq<WorkoutSchedule>, goal: string): (r: Option<WorkoutSchedule>)
    ensures r.None? <==> forall k :: 0 <= k < |plans| ==> plans[k].goal != goal
    ensures r.Some? ==> r.value.goal == goal && r.value == plans[FirstPlan(plans, goal)]
  {
    var k := FirstPlan(plans, goal);
    if k < |plans| then Some(plans[k]) else None
  }

  /** The position `schedule.find(day => day.day === name)` stops at; `|days|` when none matches. */
  function FirstDay(days: seq<WorkoutDay>, name: string): (k: nat)
    ensures k <= |days|
    ensures k < |days| ==> days[k].day == name
    ensures forall j :: 0 <= j < k ==> days[j].day != name
    decreases |days|
  {
    if days == [] then 0
    else if days[0].day == name then 0
    else 1 + FirstDay(days[1..], name)
  }

  /** `days.find(day => day.day === name)` */
  function FindDay(days: seq<WorkoutDay>, name: string): (r: Option<WorkoutDay>)
    ensures r.None? <==> forall k :: 0 <= k < |days| ==> days[k].day != name
    ensures r.Some? ==> r.value.day == name && r.value == days[FirstDay(days, name)]
  {
    var k := FirstDay(days, name);
    if k < |days| then Some(days[k]) else None
  }

  /** `getDifficultyColor` */
  function DifficultyColor(difficulty: string): (color: string)
    ensures color == "green" <==> difficulty == "Beginner"
    ensures color == "orange" <==> difficulty == "Intermediate"
    ensures color == "red" <==> difficulty == "Advanced"
    ensures color == "gray" <==> difficulty !in {"Beginner", "Intermediate", "Advanced"}
  {
    match difficulty
    case "Beginner" => "green"
    case "Intermediate" => "orange"
    case "Advanced" => "red"
    case _ => "gray"
  }

  /** The goals that have a plan are exactly the keys of the goal catalogue. */
  lemma PlanGoalsAreGoalKeys(goal: string)
    ensures FindPlan(WorkoutSchedules, goal).Some? <==> goal in GoalNames
  {
    PlanGoals();
    GoalNamesValue();
    if goal in GoalNames {
      var k :| 0 <= k < 5 && GoalNames[k] == goal;
      var j := [0, 2, 1, 3, 4][k];
      assert WorkoutSchedules[j].goal == goal;
    }
  }

  /** Where today's name sits in a plan's Monday-first week. */
  lemma DayPosition(days: seq<WorkoutDay>, today: nat)
    requires Days(days) == WeekOrder && today < 7
    ensures days[(today + 6) % 7].day == DayNames[today]
  {
    assert Days(days)[(today + 6) % 7] == days[(today + 6) % 7].day;
  }

  /**
   * For a goal of the catalogue and any weekday `Date.getDay()` can answer, the plan
   * and in it today's day are found, and that day has exercises.
   */
  lemma TodayFound(goal: string, today: nat)
    requires goal in GoalNames && today < 7
    ensures FindPlan(WorkoutSchedules, goal).Some?
    ensures FindDay(FindPlan(WorkoutSchedules, goal).value.schedule, DayNames[today]).Some?
    ensures FindDay(FindPlan(WorkoutSchedules, goal).value.schedule, DayNames[today]).value.exercises != []
  {
    PlanGoalsAreGoalKeys(goal);
    var s := FindPlan(WorkoutSchedules, goal).value;
    var k := FirstPlan(WorkoutSchedules, goal);
    PlansWeekly();
    assert WeeklyPlan(WorkoutSchedules[k]);
    DayPosition(s.schedule, today);
    assert |s.schedule| == 7 by {
      assert |Days(s.schedule)| == |s.schedule|;
    }
  }

  /** Where an id of a weekly plan sits in that plan's numbering. */
  lemma PlanIdAt(s: WorkoutSchedule, d: nat, i: nat)
    requires WeeklyPlan(s)
    requires d < |s.schedule| && i < |s.schedule[d].exercises|
    ensures s.schedule[d].exercises[i].id == GoalPrefix(s.goal) + Decimal(1 + CountBefore(DayIds(s.schedule), d) + i)
  {
    assert DayIds(s.schedule)[d][i] == s.schedule[d].exercises[i].id;
    ConsecutiveAt(DayIds(s.schedule), GoalPrefix(s.goal), 1, d, i);
  }

  /** Different plans number their ids behind different prefixes. */
  lemma PlanPrefixesDistinct(k: nat, l: nat)
    requires k < |WorkoutSchedules| && l < |WorkoutSchedules|
    requires GoalPrefix(WorkoutSchedules[k].goal) == GoalPrefix(WorkoutSchedules[l].goal)
    ensures k == l
  {
    PlanGoals();
    GoalNamesValue();
    GoalKeys();
    assert WorkoutSchedules[k].goal in GoalExerciseDatabase && WorkoutSchedules[l].goal in GoalExerciseDatabase;
    GoalPrefixInjective(WorkoutSchedules[k].goal, WorkoutSchedules[l].goal);
  }

  /** Two weekly plans sharing an id share a prefix, and within one plan an id occurs once. */
  lemma WeeklyIdsMatch(s: WorkoutSchedule, d: nat, i: nat, t: WorkoutSchedule, e: nat, j: nat)
    requires WeeklyPlan(s) && d < |s.schedule| && i < |s.schedule[d].exercises|
    requires WeeklyPlan(t) && e < |t.schedule| && j < |t.schedule[e].exercises|
    requires s.schedule[d].exercises[i].id == t.schedule[e].exercises[j].id
    ensures GoalPrefix(s.goal) == GoalPrefix(t.goal)
    ensures s == t ==> d == e && i == j
  {
    PlanIdAt(s, d, i);
    PlanIdAt(t, e, j);
    PrefixedDecimalInjective(GoalPrefix(s.goal), GoalPrefix(t.goal),
      1 + CountBefore(DayIds(s.schedule), d) + i, 1 + CountBefore(DayIds(t.schedule), e) + j);
    if s == t {
      assert DayIds(s.schedule)[d][i] == DayIds(s.schedule)[e][j];
      ConsecutiveDistinct(DayIds(s.schedule), GoalPrefix(s.goal), 1, d, i, e, j);
    }
  }

  /** No id occurs twice anywhere in the plans: not within a plan, and not across two plans. */
  lemma PlanIdsDistinct(k: nat, d: nat, i: nat, l: nat, e: nat, j: nat)
    requires k < |WorkoutSchedules| && d < |WorkoutSchedules[k].schedule|
    requires i < |WorkoutSchedules[k].schedule[d].exercises|
    requires l < |WorkoutSchedules| && e < |WorkoutSchedules[l].schedule|
    requires j < |WorkoutSchedules[l].schedule[e].exercises|
    requires WorkoutSchedules[k].schedule[d].exercises[i].id == WorkoutSchedules[l].schedule[e].exercises[j].id
    ensures k == l && d == e && i == j
  {
    PlansWeekly();
    WeeklyIdsMatch(WorkoutSchedules[k], d, i, WorkoutSchedules[l], e, j);
    PlanPrefixesDistinct(k, l);
  }

  /** The `todayWorkout` and `workoutSchedule` state cells of the component. */
  class TodayExerciseView {
    var todayWorkout: Option<WorkoutDay>
    var workoutSchedule: Option<seq<WorkoutDay>>

    /** Both cells start as `null`. */
    constructor()
      ensures todayWorkout == None && workoutSchedule == None
    {
      todayWorkout := None;
      workoutSchedule := None;
    }

    /**
     * The effect run when the user's goal changes; `today` is `new Date().getDay()`.
     * Without a goal both cells are cleared. A goal without a plan changes nothing.
     * Otherwise the plan's days are stored, and today's day too when the plan has it.
     */
    method OnGoalChange(user: Option<User>, today: nat)
      requires today < 7
      modifies this
      ensures !HasGoal(user) ==> todayWorkout == None && workoutSchedule == None
      ensures HasGoal(user) && FindPlan(WorkoutSchedules, ProfileGoal(user)).None? ==>
        todayWorkout == old(todayWorkout) && workoutSchedule == old(workoutSchedule)
      ensures HasGoal(user) && FindPlan(WorkoutSchedules, ProfileGoal(user)).Some? ==>
        var plan := FindPlan(WorkoutSchedules, ProfileGoal(user)).value;
        workoutSchedule == Some(plan.schedule) &&
        todayWorkout == (if FindDay(plan.schedule, DayNames[today]).Some? then FindDay(plan.schedule, DayNames[today])
                         else old(todayWorkout))
    {
      if HasGoal(user) {
        var userGoal := ProfileGoal(user);
        var schedule := FindPlan(WorkoutSchedules, userGoal);
        if schedule.Some? {
          workoutSchedule := Some(schedule.value.schedule);
          var name := DayNames[today];
          var day := FindDay(schedule.value.schedule, name);
          if day.Some? {
            todayWorkout := day;
          }
        }
      } else {
        workoutSchedule := None;
        todayWorkout := None;
      }
    }
  }

  /**
   * A user whose goal is a catalogue key always gets today's day of that goal's
   * plan, whatever the cells held before: the effect never leaves an old day behind.
   */
  lemma KnownGoalShowsToday(user: Option<User>, today: nat)
    requires ProfileGoal(user) in GoalNames && today < 7
    ensures HasGoal(user)
    ensures FindPlan(WorkoutSchedules, ProfileGoal(user)).Some?
    ensures FindDay(FindPlan(WorkoutSchedules, ProfileGoal(user)).value.schedule, DayNames[today]).Some?
  {
    GoalNamesValue();
    TodayFound(ProfileGoal(user), today);
  }
}
