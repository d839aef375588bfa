/**
 * The weekly workout plans of src/components/ExerciseList/TodayExercise.tsx
 * (`workoutSchedules`): one plan per fitness goal, each a list of days with their
 * exercises.
 */
module WorkoutPlans {
  import opened Wrappers
  import opened Numerals
  import opened ExerciseTypes
  import opened GoalExerciseService

  /** An exercise of a plan: `sets`, `reps` and `duration` are optional; the description is not modelled. */
  datatype ScheduledExercise = ScheduledExercise(
    id: string,
    title: string,
    sets: Option<string>,
    reps: Option<string>,
    duration: Option<string>,
    difficulty: Difficulty)

  /** `WorkoutDay` */
  datatype WorkoutDay = WorkoutDay(day: string, exercises: seq<ScheduledExercise>)

  /** `WorkoutSchedule` */
  datatype WorkoutSchedule = WorkoutSchedule(goal: string, schedule: seq<WorkoutDay>)

  /** The order every plan lists its days in. */
  const WeekOrder: seq<string> := ["Monday", "Tuesday", "Wednesday", "Thursday", "Friday", "Saturday", "Sunday"]

  /** `days`: the names `Date.getDay()` indexes, Sunday first. */
  const DayNames: seq<string> := ["Sunday", "Monday", "Tuesday", "Wednesday", "Thursday", "Friday", "Saturday"]

  /** The day names of a plan, in order. */
  function Days(days: seq<WorkoutDay>): seq<string>
  {
    seq(|days|, k requires 0 <= k < |days| => days[k].day)
  }

  /** The exercise ids of a plan, day by day. */
  function DayIds(days: seq<WorkoutDay>): seq<seq<string>>
  {
    seq(|days|, k requires 0 <= k < |days| =>
      seq(|days[k].exercises|, i requires 0 <= i < |days[k].exercises| => days[k].exercises[i].id))
  }

  /**
   * What every plan of the table satisfies: seven days, Monday to Sunday, none of
   * them empty, with ids numbered 1, 2, ... behind the goal's prefix, running on
   * from one day to the next.
   */
  predicate WeeklyPlan(s: WorkoutSchedule)
  {
    Days(s.schedule) == WeekOrder &&
    (forall k :: 0 <= k < |s.schedule| ==> s.schedule[k].exercises != []) &&
    Consecutive(DayIds(s.schedule), GoalPrefix(s.goal), 1)
  }

  /**
   * A plan is weekly when its days are Monday to Sunday and its id lists are not
   * empty and each starts its numbering where the previous one ended.
   */
  lemma WeeklyByTable(s: WorkoutSchedule, ids: seq<seq<string>>, starts: seq<nat>)
    requires Days(s.schedule) == WeekOrder && DayIds(s.schedule) == ids
    requires |starts| == 8 && starts[0] == 1
    requires forall k :: 0 <= k < 7 ==>
      NumberedFrom(ids[k], GoalPrefix(s.goal), starts[k]) && starts[k + 1] == starts[k] + |ids[k]| && ids[k] != []
    ensures WeeklyPlan(s)
  {
    assert forall k :: 0 <= k < |s.schedule| ==> |s.schedule[k].exercises| == |ids[k]|;
    ConsecutiveByStarts(ids, GoalPrefix(s.goal), starts);
  }

  const WeightLossPlan: WorkoutSchedule := WorkoutSchedule("weight-loss", [
      WorkoutDay("Monday", [
          ScheduledExercise("wl-1", "Cardio Interval Training", None, None, Some("30 minutes"), Intermediate),
          ScheduledExercise("wl-2", "Bodyweight Circuit", Some("3"), None, None, Beginner)
      ]),
      WorkoutDay("Tuesday", [
          ScheduledExercise("wl-3", "Brisk Walking or Light Jogging", None, None, Some("45 minutes"), Beginner),
          ScheduledExercise("wl-4", "Core Workout", Some("3"), None, None, Beginner)
      ]),
      WorkoutDay("Wednesday", [
          ScheduledExercise("wl-5", "HIIT Workout", None, None, Some("25 minutes"), Advanced),
          ScheduledExercise("wl-6", "Lower Body Strength", Some("3"), None, None, Intermediate)
      ]),
      WorkoutDay("Thursday", [
          ScheduledExercise("wl-7", "Active Recovery", None, None, Some("30 minutes"), Beginner)
      ]),
      WorkoutDay("Friday", [
          ScheduledExercise("wl-8", "Steady-State Cardio", None, None, Some("40 minutes"), Intermediate),
          ScheduledExercise("wl-9", "Upper Body Circuit", Some("3"), None, None, Intermediate)
      ]),
      WorkoutDay("Saturday", [
          ScheduledExercise("wl-10", "Full Body HIIT", None, None, Some("35 minutes"), Advanced)
      ]),
      WorkoutDay("Sunday", [
          ScheduledExercise("wl-11", "Rest Day", None, None, Some("As needed"), Beginner)
      ])
    ])

  const MuscleGainPlan: WorkoutSchedule := WorkoutSchedule("muscle-gain", [
      WorkoutDay("Monday", [
          ScheduledExercise("mg-1", "Chest & Triceps", Some("3-4"), None, None, Intermediate),
          ScheduledExercise("mg-2", "Core Finisher", Some("3"), None, None, Intermediate)
      ]),
      WorkoutDay("Tuesday", [
          ScheduledExercise("mg-3", "Back & Biceps", Some("3-4"), None, None, Intermediate),
          ScheduledExercise("mg-4", "Core Work", Some("3"), None, None, Intermediate)
      ]),
      WorkoutDay("Wednesday", [
          ScheduledExercise("mg-5", "Active Recovery", None, None, Some("30-45 minutes"), Beginner)
      ]),
      WorkoutDay("Thursday", [
          ScheduledExercise("mg-6", "Legs & Shoulders", Some("3-4"), None, None, Intermediate),
          ScheduledExercise("mg-7", "Calves & Abs", Some("3-4"), None, None, Intermediate)
      ]),
      WorkoutDay("Friday", [
          ScheduledExercise("mg-8", "Full Body Workout", Some("3-4"), None, None, Advanced),
          ScheduledExercise("mg-9", "Core Circuit", Some("3"), None, None, Intermediate)
      ]),
      WorkoutDay("Saturday", [
          ScheduledExercise("mg-10", "Arms & Shoulders", Some("3-4"), None, None, Intermediate),
          ScheduledExercise("mg-11", "Light Cardio", None, None, Some("20-30 minutes"), Beginner)
      ]),
      WorkoutDay("Sunday", [
          ScheduledExercise("mg-12", "Rest Day", None, None, Some("Full day"), Beginner)
      ])
    ])

  const WeightGainPlan: WorkoutSchedule := WorkoutSchedule("weight-gain", [
      WorkoutDay("Monday", [
          ScheduledExercise("wg-1", "Compound Lifts - Lower Body", Some("3-4"), None, None, Intermediate),
          ScheduledExercise("wg-2", "Calorie-Dense Meal Planning", None, None, None, Beginner)
      ]),
      WorkoutDay("Tuesday", [
          ScheduledExercise("wg-3", "Upper Body Push", Some("3-4"), None, None, Intermediate),
          ScheduledExercise("wg-4", "Core Stability", Some("3"), None, None, Intermediate)
      ]),
      WorkoutDay("Wednesday", [
          ScheduledExercise("wg-5", "Active Recovery", None, None, Some("30 minutes"), Beginner),
          ScheduledExercise("wg-6", "Nutrition Focus", None, None, None, Beginner)
      ]),
      WorkoutDay("Thursday", [
          ScheduledExercise("wg-7", "Upper Body Pull", Some("3-4"), None, None, Intermediate),
          ScheduledExercise("wg-8", "Bicep Focus", Some("3"), None, None, Intermediate)
      ]),
      WorkoutDay("Friday", [
          ScheduledExercise("wg-9", "Lower Body Hypertrophy", Some("3-4"), None, None, Intermediate),
          ScheduledExercise("wg-10", "Core Strength", Some("3"), None, None, Intermediate)
      ]),
      WorkoutDay("Saturday", [
          ScheduledExercise("wg-11", "Full Body Strength", Some("3"), Some("10-12"), None, Intermediate),
          ScheduledExercise("wg-12", "Recovery Nutrition", None, None, None, Beginner)
      ]),
      WorkoutDay("Sunday", [
          ScheduledExercise("wg-13", "Rest Day", None, None, None, Beginner)
      ])
    ])

  const MaintenancePlan: WorkoutSchedule := WorkoutSchedule("maintenance", [
      WorkoutDay("Monday", [
          ScheduledExercise("mt-1", "Full Body Strength", Some("3"), None, None, Intermediate),
          ScheduledExercise("mt-2", "Light Cardio", None, None, Some("20 minutes"), Beginner)
      ]),
      WorkoutDay("Tuesday", [
          ScheduledExercise("mt-3", "Flexibility & Mobility", None, None, Some("30 minutes"), Beginner),
          ScheduledExercise("mt-4", "Core Stability", Some("3"), None, None, Beginner)
      ]),
      WorkoutDay("Wednesday", [
          ScheduledExercise("mt-5", "Moderate Cardio", None, None, Some("30 minutes"), Intermediate),
          ScheduledExercise("mt-6", "Upper Body Strength", Some("3"), None, None, Intermediate)
      ]),
      WorkoutDay("Thursday", [
          ScheduledExercise("mt-7", "Active Recovery", None, None, Some("30 minutes"), Beginner)
      ]),
      WorkoutDay("Friday", [
          ScheduledExercise("mt-8", "Lower Body Strength", Some("3"), None, None, Intermediate),
          ScheduledExercise("mt-9", "Core Workout", Some("3"), None, None, Intermediate)
      ]),
      WorkoutDay("Saturday", [
          ScheduledExercise("mt-10", "Recreational Activity", None, None, Some("45-60 minutes"), Intermediate)
      ]),
      WorkoutDay("Sunday", [
          ScheduledExercise("mt-11", "Rest or Light Activity", None, None, Some("As needed"), Beginner)
      ])
    ])

  const GeneralFitnessPlan: WorkoutSchedule := WorkoutSchedule("general-fitness", [
      WorkoutDay("Monday", [
          ScheduledExercise("gf-1", "Cardio Endurance", None, None, Some("30 minutes"), Intermediate),
          ScheduledExercise("gf-2", "Core Circuit", Some("3"), None, None, Beginner)
      ]),
      WorkoutDay("Tuesday", [
          ScheduledExercise("gf-3", "Full Body Strength", Some("3"), None, None, Intermediate)
      ]),
      WorkoutDay("Wednesday", [
          ScheduledExercise("gf-4", "Flexibility & Mobility", None, None, Some("30-45 minutes"), Beginner)
      ]),
      WorkoutDay("Thursday", [
          ScheduledExercise("gf-5", "Interval Training", None, None, Some("25 minutes"), Intermediate),
          ScheduledExercise("gf-6", "Core Stability", Some("3"), None, None, Intermediate)
      ]),
      WorkoutDay("Friday", [
          ScheduledExercise("gf-7", "Circuit Training", Some("3"), None, None, Intermediate)
      ]),
      WorkoutDay("Saturday", [
          ScheduledExercise("gf-8", "Recreational Activity", None, None, Some("45-60 minutes"), Intermediate)
      ]),
      WorkoutDay("Sunday", [
          ScheduledExercise("gf-9", "Active Recovery", None, None, Some("20-30 minutes"), Beginner)
      ])
    ])

  /** `workoutSchedules`, in source order. */
  const WorkoutSchedules: seq<WorkoutSchedule> := [WeightLossPlan, MuscleGainPlan, WeightGainPlan, MaintenancePlan, GeneralFitnessPlan]

  /** The ids of the weight-loss plan, day by day, and the number each day's ids start from. */
  const WeightLossIds: seq<seq<string>> := [["wl-1", "wl-2"], ["wl-3", "wl-4"], ["wl-5", "wl-6"], ["wl-7"], ["wl-8", "wl-9"], ["wl-10"], ["wl-11"]]
  const WeightLossStarts: seq<nat> := [1, 3, 5, 7, 8, 10, 11, 12]

  lemma WeightLossDay0()
    ensures WeightLossPlan.schedule[0].day == WeekOrder[0] && DayIds(WeightLossPlan.schedule)[0] == WeightLossIds[0]
  {
  }

  lemma WeightLossNumbered0()
    ensures NumberedFrom(WeightLossIds[0], "wl-", 1) && |WeightLossIds[0]| == 2
  {
  }

  lemma WeightLossDay1()
    ensures WeightLossPlan.schedule[1].day == WeekOrder[1] && DayIds(WeightLossPlan.schedule)[1] == WeightLossIds[1]
  {
  }

  lemma WeightLossNumbered1()
    ensures NumberedFrom(WeightLossIds[1], "wl-", 3) && |WeightLossIds[1]| == 2
  {
  }

  lemma WeightLossDay2()
    ensures WeightLossPlan.schedule[2].day == WeekOrder[2] && DayIds(WeightLossPlan.schedule)[2] == WeightLossIds[2]
  {
  }

  lemma WeightLossNumbered2()
    ensures NumberedFrom(WeightLossIds[2], "wl-", 5) && |WeightLossIds[2]| == 2
  {
  }

  lemma WeightLossDay3()
    ensures WeightLossPlan.schedule[3].day == WeekOrder[3] && DayIds(WeightLossPlan.schedule)[3] == WeightLossIds[3]
  {
  }

  lemma WeightLossNumbered3()
    ensures NumberedFrom(WeightLossIds[3], "wl-", 7) && |WeightLossIds[3]| == 1
  {
  }

  lemma WeightLossDay4()
    ensures WeightLossPlan.schedule[4].day == WeekOrder[4] && DayIds(WeightLossPlan.schedule)[4] == WeightLossIds[4]
  {
  }

  lemma WeightLossNumbered4()
    ensures NumberedFrom(WeightLossIds[4], "wl-", 8) && |WeightLossIds[4]| == 2
  {
  }

  lemma WeightLossDay5()
    ensures WeightLossPlan.schedule[5].day == WeekOrder[5] && DayIds(WeightLossPlan.schedule)[5] == WeightLossIds[5]
  {
  }

  lemma WeightLossNumbered5()
    ensures NumberedFrom(WeightLossIds[5], "wl-", 10) && |WeightLossIds[5]| == 1
  {
  }

  lemma WeightLossDay6()
    ensures WeightLossPlan.schedule[6].day == WeekOrder[6] && DayIds(WeightLossPlan.schedule)[6] == WeightLossIds[6]
  {
  }

  lemma WeightLossNumbered6()
    ensures NumberedFrom(WeightLossIds[6], "wl-", 11) && |WeightLossIds[6]| == 1
  {
  }

  /** The weight-loss plan lists its days Monday to Sunday, with the ids `WeightLossIds`. */
  lemma WeightLossTable()
    ensures Days(WeightLossPlan.schedule) == WeekOrder && DayIds(WeightLossPlan.schedule) == WeightLossIds
  {
    assert |WeightLossPlan.schedule| == 7;
    forall k | 0 <= k < 7
      ensures WeightLossPlan.schedule[k].day == WeekOrder[k] && DayIds(WeightLossPlan.schedule)[k] == WeightLossIds[k]
    {
      if k == 0 {
        WeightLossDay0();
      } else if k == 1 {
        WeightLossDay1();
      } else if k == 2 {
        WeightLossDay2();
      } else if k == 3 {
        WeightLossDay3();
      } else if k == 4 {
        WeightLossDay4();
      } else if k == 5 {
        WeightLossDay5();
      } else {
        WeightLossDay6();
      }
    }
  }

  /** Each day's ids continue the numbering where the previous day's ended. */
  lemma WeightLossNumbered()
    ensures forall k :: 0 <= k < 7 ==>
      NumberedFrom(WeightLossIds[k], "wl-", WeightLossStarts[k]) && WeightLossStarts[k + 1] == WeightLossStarts[k] + |WeightLossIds[k]| && WeightLossIds[k] != []
  {
    forall k | 0 <= k < 7
      ensures NumberedFrom(WeightLossIds[k], "wl-", WeightLossStarts[k]) && WeightLossStarts[k + 1] == WeightLossStarts[k] + |WeightLossIds[k]| && WeightLossIds[k] != []
    {
      if k == 0 {
        WeightLossNumbered0();
      } else if k == 1 {
        WeightLossNumbered1();
      } else if k == 2 {
        WeightLossNumbered2();
      } else if k == 3 {
        WeightLossNumbered3();
      } else if k == 4 {
        WeightLossNumbered4();
      } else if k == 5 {
        WeightLossNumbered5();
      } else {
        WeightLossNumbered6();
      }
    }
  }

  lemma WeightLossWeekly()
    ensures WeightLossPlan.goal == "weight-loss" && WeeklyPlan(WeightLossPlan)
  {
    WeightLossTable();
    WeightLossNumbered();
    WeeklyByTable(WeightLossPlan, WeightLossIds, WeightLossStarts);
  }

  /** The ids of the muscle-gain plan, day by day, and the number each day's ids start from. */
  const MuscleGainIds: seq<seq<string>> := [["mg-1", "mg-2"], ["mg-3", "mg-4"], ["mg-5"], ["mg-6", "mg-7"], ["mg-8", "mg-9"], ["mg-10", "mg-11"], ["mg-12"]]
  const MuscleGainStarts: seq<nat> := [1, 3, 5, 6, 8, 10, 12, 13]

  lemma MuscleGainDay0()
    ensures MuscleGainPlan.schedule[0].day == WeekOrder[0] && DayIds(MuscleGainPlan.schedule)[0] == MuscleGainIds[0]
  {
  }

  lemma MuscleGainNumbered0()
    ensures NumberedFrom(MuscleGainIds[0], "mg-", 1) && |MuscleGainIds[0]| == 2
  {
  }

  lemma MuscleGainDay1()
    ensures MuscleGainPlan.schedule[1].day == WeekOrder[1] && DayIds(MuscleGainPlan.schedule)[1] == MuscleGainIds[1]
  {
  }

  lemma MuscleGainNumbered1()
    ensures NumberedFrom(MuscleGainIds[1], "mg-", 3) && |MuscleGainIds[1]| == 2
  {
  }

  lemma MuscleGainDay2()
    ensures MuscleGainPlan.schedule[2].day == WeekOrder[2] && DayIds(MuscleGainPlan.schedule)[2] == MuscleGainIds[2]
  {
  }

  lemma MuscleGainNumbered2()
    ensures NumberedFrom(MuscleGainIds[2], "mg-", 5) && |MuscleGainIds[2]| == 1
  {
  }

  lemma MuscleGainDay3()
    ensures MuscleGainPlan.schedule[3].day == WeekOrder[3] && DayIds(MuscleGainPlan.schedule)[3] == MuscleGainIds[3]
  {
  }

  lemma MuscleGainNumbered3()
    ensures NumberedFrom(MuscleGainIds[3], "mg-", 6) && |MuscleGainIds[3]| == 2
  {
  }

  lemma MuscleGainDay4()
    ensures MuscleGainPlan.schedule[4].day == WeekOrder[4] && DayIds(MuscleGainPlan.schedule)[4] == MuscleGainIds[4]
  {
  }

  lemma MuscleGainNumbered4()
    ensures NumberedFrom(MuscleGainIds[4], "mg-", 8) && |MuscleGainIds[4]| == 2
  {
  }

  lemma MuscleGainDay5()
    ensures MuscleGainPlan.schedule[5].day == WeekOrder[5] && DayIds(MuscleGainPlan.schedule)[5] == MuscleGainIds[5]
  {
  }

  lemma MuscleGainNumbered5()
    ensures NumberedFrom(MuscleGainIds[5], "mg-", 10) && |MuscleGainIds[5]| == 2
  {
  }

  lemma MuscleGainDay6()
    ensures MuscleGainPlan.schedule[6].day == WeekOrder[6] && DayIds(MuscleGainPlan.schedule)[6] == MuscleGainIds[6]
  {
  }

  lemma MuscleGainNumbered6()
    ensures NumberedFrom(MuscleGainIds[6], "mg-", 12) && |MuscleGainIds[6]| == 1
  {
  }

  /** The muscle-gain plan lists its days Monday to Sunday, with the ids `MuscleGainIds`. */
  lemma MuscleGainTable()
    ensures Days(MuscleGainPlan.schedule) == WeekOrder && DayIds(MuscleGainPlan.schedule) == MuscleGainIds
  {
    assert |MuscleGainPlan.schedule| == 7;
    forall k | 0 <= k < 7
      ensures MuscleGainPlan.schedule[k].day == WeekOrder[k] && DayIds(MuscleGainPlan.schedule)[k] == MuscleGainIds[k]
    {
      if k == 0 {
        MuscleGainDay0();
      } else if k == 1 {
        MuscleGainDay1();
      } else if k == 2 {
        MuscleGainDay2();
      } else if k == 3 {
        MuscleGainDay3();
      } else if k == 4 {
        MuscleGainDay4();
      } else if k == 5 {
        MuscleGainDay5();
      } else {
        MuscleGainDay6();
      }
    }
  }

  /** Each day's ids continue the numbering where the previous day's ended. */
  lemma MuscleGainNumbered()
    ensures forall k :: 0 <= k < 7 ==>
      NumberedFrom(MuscleGainIds[k], "mg-", MuscleGainStarts[k]) && MuscleGainStarts[k + 1] == MuscleGainStarts[k] + |MuscleGainIds[k]| && MuscleGainIds[k] != []
  {
    forall k | 0 <= k < 7
      ensures NumberedFrom(MuscleGainIds[k], "mg-", MuscleGainStarts[k]) && MuscleGainStarts[k + 1] == MuscleGainStarts[k] + |MuscleGainIds[k]| && MuscleGainIds[k] != []
    {
      if k == 0 {
        MuscleGainNumbered0();
      } else if k == 1 {
        MuscleGainNumbered1();
      } else if k == 2 {
        MuscleGainNumbered2();
      } else if k == 3 {
        MuscleGainNumbered3();
      } else if k == 4 {
        MuscleGainNumbered4();
      } else if k == 5 {
        MuscleGainNumbered5();
      } else {
        MuscleGainNumbered6();
      }
    }
  }

  lemma MuscleGainWeekly()
    ensures MuscleGainPlan.goal == "muscle-gain" && WeeklyPlan(MuscleGainPlan)
  {
    MuscleGainTable();
    MuscleGainNumbered();
    WeeklyByTable(MuscleGainPlan, MuscleGainIds, MuscleGainStarts);
  }

  /** The ids of the weight-gain plan, day by day, and the number each day's ids start from. */
  const WeightGainIds: seq<seq<string>> := [["wg-1", "wg-2"], ["wg-3", "wg-4"], ["wg-5", "wg-6"], ["wg-7", "wg-8"], ["wg-9", "wg-10"], ["wg-11", "wg-12"], ["wg-13"]]
  const WeightGainStarts: seq<nat> := [1, 3, 5, 7, 9, 11, 13, 14]

  lemma WeightGainDay0()
    ensures WeightGainPlan.schedule[0].day == WeekOrder[0] && DayIds(WeightGainPlan.schedule)[0] == WeightGainIds[0]
  {
  }

  lemma WeightGainNumbered0()
    ensures NumberedFrom(WeightGainIds[0], "wg-", 1) && |WeightGainIds[0]| == 2
  {
  }

  lemma WeightGainDay1()
    ensures WeightGainPlan.schedule[1].day == WeekOrder[1] && DayIds(WeightGainPlan.schedule)[1] == WeightGainIds[1]
  {
  }

  lemma WeightGainNumbered1()
    ensures NumberedFrom(WeightGainIds[1], "wg-", 3) && |WeightGainIds[1]| == 2
  {
  }

  lemma WeightGainDay2()
    ensures WeightGainPlan.schedule[2].day == WeekOrder[2] && DayIds(WeightGainPlan.schedule)[2] == WeightGainIds[2]
  {
  }

  lemma WeightGainNumbered2()
    ensures NumberedFrom(WeightGainIds[2], "wg-", 5) && |WeightGainIds[2]| == 2
  {
  }

  lemma WeightGainDay3()
    ensures WeightGainPlan.schedule[3].day == WeekOrder[3] && DayIds(WeightGainPlan.schedule)[3] == WeightGainIds[3]
  {
  }

  lemma WeightGainNumbered3()
    ensures NumberedFrom(WeightGainIds[3], "wg-", 7) && |WeightGainIds[3]| == 2
  {
  }

  lemma WeightGainDay4()
    ensures WeightGainPlan.schedule[4].day == WeekOrder[4] && DayIds(WeightGainPlan.schedule)[4] == WeightGainIds[4]
  {
  }

  lemma WeightGainNumbered4()
    ensures NumberedFrom(WeightGainIds[4], "wg-", 9) && |WeightGainIds[4]| == 2
  {
  }

  lemma WeightGainDay5()
    ensures WeightGainPlan.schedule[5].day == WeekOrder[5] && DayIds(WeightGainPlan.schedule)[5] == WeightGainIds[5]
  {
  }

  lemma WeightGainNumbered5()
    ensures NumberedFrom(WeightGainIds[5], "wg-", 11) && |WeightGainIds[5]| == 2
  {
  }

  lemma WeightGainDay6()
    ensures WeightGainPlan.schedule[6].day == WeekOrder[6] && DayIds(WeightGainPlan.schedule)[6] == WeightGainIds[6]
  {
  }

  lemma WeightGainNumbered6()
    ensures NumberedFrom(WeightGainIds[6], "wg-", 13) && |WeightGainIds[6]| == 1
  {
  }

  /** The weight-gain plan lists its days Monday to Sunday, with the ids `WeightGainIds`. */
  lemma WeightGainTable()
    ensures Days(WeightGainPlan.schedule) == WeekOrder && DayIds(WeightGainPlan.schedule) == WeightGainIds
  {
    assert |WeightGainPlan.schedule| == 7;
    forall k | 0 <= k < 7
      ensures WeightGainPlan.schedule[k].day == WeekOrder[k] && DayIds(WeightGainPlan.schedule)[k] == WeightGainIds[k]
    {
      if k == 0 {
        WeightGainDay0();
      } else if k == 1 {
        WeightGainDay1();
      } else if k == 2 {
        WeightGainDay2();
      } else if k == 3 {
        WeightGainDay3();
      } else if k == 4 {
        WeightGainDay4();
      } else if k == 5 {
        WeightGainDay5();
      } else {
        WeightGainDay6();
      }
    }
  }

  /** Each day's ids continue the numbering where the previous day's ended. */
  lemma WeightGainNumbered()
    ensures forall k :: 0 <= k < 7 ==>
      NumberedFrom(WeightGainIds[k], "wg-", WeightGainStarts[k]) && WeightGainStarts[k + 1] == WeightGainStarts[k] + |WeightGainIds[k]| && WeightGainIds[k] != []
  {
    forall k | 0 <= k < 7
      ensures NumberedFrom(WeightGainIds[k], "wg-", WeightGainStarts[k]) && WeightGainStarts[k + 1] == WeightGainStarts[k] + |WeightGainIds[k]| && WeightGainIds[k] != []
    {
      if k == 0 {
        WeightGainNumbered0();
      } else if k == 1 {
        WeightGainNumbered1();
      } else if k == 2 {
        WeightGainNumbered2();
      } else if k == 3 {
        WeightGainNumbered3();
      } else if k == 4 {
        WeightGainNumbered4();
      } else if k == 5 {
        WeightGainNumbered5();
      } else {
        WeightGainNumbered6();
      }
    }
  }

  lemma WeightGainWeekly()
    ensures WeightGainPlan.goal == "weight-gain" && WeeklyPlan(WeightGainPlan)
  {
    WeightGainTable();
    WeightGainNumbered();
    WeeklyByTable(WeightGainPlan, WeightGainIds, WeightGainStarts);
  }

  /** The ids of the maintenance plan, day by day, and the number each day's ids start from. */
  const MaintenanceIds: seq<seq<string>> := [["mt-1", "mt-2"], ["mt-3", "mt-4"], ["mt-5", "mt-6"], ["mt-7"], ["mt-8", "mt-9"], ["mt-10"], ["mt-11"]]
  const MaintenanceStarts: seq<nat> := [1, 3, 5, 7, 8, 10, 11, 12]

  lemma MaintenanceDay0()
    ensures MaintenancePlan.schedule[0].day == WeekOrder[0] && DayIds(MaintenancePlan.schedule)[0] == MaintenanceIds[0]
  {
  }

  lemma MaintenanceNumbered0()
    ensures NumberedFrom(MaintenanceIds[0], "mt-", 1) && |MaintenanceIds[0]| == 2
  {
  }

  lemma MaintenanceDay1()
    ensures MaintenancePlan.schedule[1].day == WeekOrder[1] && DayIds(MaintenancePlan.schedule)[1] == MaintenanceIds[1]
  {
  }

  lemma MaintenanceNumbered1()
    ensures NumberedFrom(MaintenanceIds[1], "mt-", 3) && |MaintenanceIds[1]| == 2
  {
  }

  lemma MaintenanceDay2()
    ensures MaintenancePlan.schedule[2].day == WeekOrder[2] && DayIds(MaintenancePlan.schedule)[2] == MaintenanceIds[2]
  {
  }

  lemma MaintenanceNumbered2()
    ensures NumberedFrom(MaintenanceIds[2], "mt-", 5) && |MaintenanceIds[2]| == 2
  {
  }

  lemma MaintenanceDay3()
    ensures MaintenancePlan.schedule[3].day == WeekOrder[3] && DayIds(MaintenancePlan.schedule)[3] == MaintenanceIds[3]
  {
  }

  lemma MaintenanceNumbered3()
    ensures NumberedFrom(MaintenanceIds[3], "mt-", 7) && |MaintenanceIds[3]| == 1
  {
  }

  lemma MaintenanceDay4()
    ensures MaintenancePlan.schedule[4].day == WeekOrder[4] && DayIds(MaintenancePlan.schedule)[4] == MaintenanceIds[4]
  {
  }

  lemma MaintenanceNumbered4()
    ensures NumberedFrom(MaintenanceIds[4], "mt-", 8) && |MaintenanceIds[4]| == 2
  {
  }

  lemma MaintenanceDay5()
    ensures MaintenancePlan.schedule[5].day == WeekOrder[5] && DayIds(MaintenancePlan.schedule)[5] == MaintenanceIds[5]
  {
  }

  lemma MaintenanceNumbered5()
    ensures NumberedFrom(MaintenanceIds[5], "mt-", 10) && |MaintenanceIds[5]| == 1
  {
  }

  lemma MaintenanceDay6()
    ensures MaintenancePlan.schedule[6].day == WeekOrder[6] && DayIds(MaintenancePlan.schedule)[6] == MaintenanceIds[6]
  {
  }

  lemma MaintenanceNumbered6()
    ensures NumberedFrom(MaintenanceIds[6], "mt-", 11) && |MaintenanceIds[6]| == 1
  {
  }

  /** The maintenance plan lists its days Monday to Sunday, with the ids `MaintenanceIds`. */
  lemma MaintenanceTable()
    ensures Days(MaintenancePlan.schedule) == WeekOrder && DayIds(MaintenancePlan.schedule) == MaintenanceIds
  {
    assert |MaintenancePlan.schedule| == 7;
    forall k | 0 <= k < 7
      ensures MaintenancePlan.schedule[k].day == WeekOrder[k] && DayIds(MaintenancePlan.schedule)[k] == MaintenanceIds[k]
    {
      if k == 0 {
        MaintenanceDay0();
      } else if k == 1 {
        MaintenanceDay1();
      } else if k == 2 {
        MaintenanceDay2();
      } else if k == 3 {
        MaintenanceDay3();
      } else if k == 4 {
        MaintenanceDay4();
      } else if k == 5 {
        MaintenanceDay5();
      } else {
        MaintenanceDay6();
      }
    }
  }

  /** Each day's ids continue the numbering where the previous day's ended. */
  lemma MaintenanceNumbered()
    ensures forall k :: 0 <= k < 7 ==>
      NumberedFrom(MaintenanceIds[k], "mt-", MaintenanceStarts[k]) && MaintenanceStarts[k + 1] == MaintenanceStarts[k] + |MaintenanceIds[k]| && MaintenanceIds[k] != []
  {
    forall k | 0 <= k < 7
      ensures NumberedFrom(MaintenanceIds[k], "mt-", MaintenanceStarts[k]) && MaintenanceStarts[k + 1] == MaintenanceStarts[k] + |MaintenanceIds[k]| && MaintenanceIds[k] != []
    {
      if k == 0 {
        MaintenanceNumbered0();
      } else if k == 1 {
        MaintenanceNumbered1();
      } else if k == 2 {
        MaintenanceNumbered2();
      } else if k == 3 {
        MaintenanceNumbered3();
      } else if k == 4 {
        MaintenanceNumbered4();
      } else if k == 5 {
        MaintenanceNumbered5();
      } else {
        MaintenanceNumbered6();
      }
    }
  }

  lemma MaintenanceWeekly()
    ensures MaintenancePlan.goal == "maintenance" && WeeklyPlan(MaintenancePlan)
  {
    MaintenanceTable();
    MaintenanceNumbered();
    WeeklyByTable(MaintenancePlan, MaintenanceIds, MaintenanceStarts);
  }

  /** The ids of the general-fitness plan, day by day, and the number each day's ids start from. */
  const GeneralFitnessIds: seq<seq<string>> := [["gf-1", "gf-2"], ["gf-3"], ["gf-4"], ["gf-5", "gf-6"], ["gf-7"], ["gf-8"], ["gf-9"]]
  const GeneralFitnessStarts: seq<nat> := [1, 3, 4, 5, 7, 8, 9, 10]

  lemma GeneralFitnessDay0()
    ensures GeneralFitnessPlan.schedule[0].day == WeekOrder[0] && DayIds(GeneralFitnessPlan.schedule)[0] == GeneralFitnessIds[0]
  {
  }

  lemma GeneralFitnessNumbered0()
    ensures NumberedFrom(GeneralFitnessIds[0], "gf-", 1) && |GeneralFitnessIds[0]| == 2
  {
  }

  lemma GeneralFitnessDay1()
    ensures GeneralFitnessPlan.schedule[1].day == WeekOrder[1] && DayIds(GeneralFitnessPlan.schedule)[1] == GeneralFitnessIds[1]
  {
  }

  lemma GeneralFitnessNumbered1()
    ensures NumberedFrom(GeneralFitnessIds[1], "gf-", 3) && |GeneralFitnessIds[1]| == 1
  {
  }

  lemma GeneralFitnessDay2()
    ensures GeneralFitnessPlan.schedule[2].day == WeekOrder[2] && DayIds(GeneralFitnessPlan.schedule)[2] == GeneralFitnessIds[2]
  {
  }

  lemma GeneralFitnessNumbered2()
    ensures NumberedFrom(GeneralFitnessIds[2], "gf-", 4) && |GeneralFitnessIds[2]| == 1
  {
  }

  lemma GeneralFitnessDay3()
    ensures GeneralFitnessPlan.schedule[3].day == WeekOrder[3] && DayIds(GeneralFitnessPlan.schedule)[3] == GeneralFitnessIds[3]
  {
  }

  lemma GeneralFitnessNumbered3()
    ensures NumberedFrom(GeneralFitnessIds[3], "gf-", 5) && |GeneralFitnessIds[3]| == 2
  {
  }

  lemma GeneralFitnessDay4()
    ensures GeneralFitnessPlan.schedule[4].day == WeekOrder[4] && DayIds(GeneralFitnessPlan.schedule)[4] == GeneralFitnessIds[4]
  {
  }

  lemma GeneralFitnessNumbered4()
    ensures NumberedFrom(GeneralFitnessIds[4], "gf-", 7) && |GeneralFitnessIds[4]| == 1
  {
  }

  lemma GeneralFitnessDay5()
    ensures GeneralFitnessPlan.schedule[5].day == WeekOrder[5] && DayIds(GeneralFitnessPlan.schedule)[5] == GeneralFitnessIds[5]
  {
  }

  lemma GeneralFitnessNumbered5()
    ensures NumberedFrom(GeneralFitnessIds[5], "gf-", 8) && |GeneralFitnessIds[5]| == 1
  {
  }

  lemma GeneralFitnessDay6()
    ensures GeneralFitnessPlan.schedule[6].day == WeekOrder[6] && DayIds(GeneralFitnessPlan.schedule)[6] == GeneralFitnessIds[6]
  {
  }

  lemma GeneralFitnessNumbered6()
    ensures NumberedFrom(GeneralFitnessIds[6], "gf-", 9) && |GeneralFitnessIds[6]| == 1
  {
  }

  /** The general-fitness plan lists its days Monday to Sunday, with the ids `GeneralFitnessIds`. */
  lemma GeneralFitnessTable()
    ensures Days(GeneralFitnessPlan.schedule) == WeekOrder && DayIds(GeneralFitnessPlan.schedule) == GeneralFitnessIds
  {
    assert |GeneralFitnessPlan.schedule| == 7;
    forall k | 0 <= k < 7
      ensures GeneralFitnessPlan.schedule[k].day == WeekOrder[k] && DayIds(GeneralFitnessPlan.schedule)[k] == GeneralFitnessIds[k]
    {
      if k == 0 {
        GeneralFitnessDay0();
      } else if k == 1 {
        GeneralFitnessDay1();
      } else if k == 2 {
        GeneralFitnessDay2();
      } else if k == 3 {
        GeneralFitnessDay3();
      } else if k == 4 {
        GeneralFitnessDay4();
      } else if k == 5 {
        GeneralFitnessDay5();
      } else {
        GeneralFitnessDay6();
      }
    }
  }

  /** Each day's ids continue the numbering where the previous day's ended. */
  lemma GeneralFitnessNumbered()
    ensures forall k :: 0 <= k < 7 ==>
      NumberedFrom(GeneralFitnessIds[k], "gf-", GeneralFitnessStarts[k]) && GeneralFitnessStarts[k + 1] == GeneralFitnessStarts[k] + |GeneralFitnessIds[k]| && GeneralFitnessIds[k] != []
  {
    forall k | 0 <= k < 7
      ensures NumberedFrom(GeneralFitnessIds[k], "gf-", GeneralFitnessStarts[k]) && GeneralFitnessStarts[k + 1] == GeneralFitnessStarts[k] + |GeneralFitnessIds[k]| && GeneralFitnessIds[k] != []
    {
      if k == 0 {
        GeneralFitnessNumbered0();
      } else if k == 1 {
        GeneralFitnessNumbered1();
      } else if k == 2 {
        GeneralFitnessNumbered2();
      } else if k == 3 {
        GeneralFitnessNumbered3();
      } else if k == 4 {
        GeneralFitnessNumbered4();
      } else if k == 5 {
        GeneralFitnessNumbered5();
      } else {
        GeneralFitnessNumbered6();
      }
    }
  }

  lemma GeneralFitnessWeekly()
    ensures GeneralFitnessPlan.goal == "general-fitness" && WeeklyPlan(GeneralFitnessPlan)
  {
    GeneralFitnessTable();
    GeneralFitnessNumbered();
    WeeklyByTable(GeneralFitnessPlan, GeneralFitnessIds, GeneralFitnessStarts);
  }

  /** Every plan of the table is a weekly plan. */
  lemma PlansWeekly()
    ensures forall k :: 0 <= k < |WorkoutSchedules| ==> WeeklyPlan(WorkoutSchedules[k])
  {
    forall k | 0 <= k < |WorkoutSchedules|
      ensures WeeklyPlan(WorkoutSchedules[k])
    {
      if k == 0 {
        WeightLossWeekly();
      } else if k == 1 {
        MuscleGainWeekly();
      } else if k == 2 {
        WeightGainWeekly();
      } else if k == 3 {
        MaintenanceWeekly();
      } else {
        GeneralFitnessWeekly();
      }
    }
  }

  /** The goals of the plans, in order. */
  lemma PlanGoals()
    ensures |WorkoutSchedules| == 5
    ensures forall k :: 0 <= k < |WorkoutSchedules| ==> WorkoutSchedules[k].goal == ["weight-loss", "muscle-gain", "weight-gain", "maintenance", "general-fitness"][k]
  {
  }
}
