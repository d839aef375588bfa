/**
 * The goal catalogue of src/services/goalExerciseService.ts: a constant record from
 * fitness goal to a fixed list of five exercises, and the lookup that answers an empty
 * list for any goal that is not in the record.
 */
module GoalExerciseService {
  import opened Tables
  import opened Numerals
  import opened ExerciseTypes

  /** The entries of `goalExerciseDatabase`, in source order. */
  const GoalTable: seq<(string, seq<Exercise>)> := [
    ("weight-loss", [
      Exercise("wl-1", "High-Intensity Interval Training (HIIT)", Intermediate, "20-30 minutes"),
      Exercise("wl-2", "Circuit Training", Intermediate, "30-45 minutes"),
      Exercise("wl-3", "Steady-State Cardio", Beginner, "30-60 minutes"),
      Exercise("wl-4", "Bodyweight Circuit", Beginner, "20-30 minutes"),
      Exercise("wl-5", "Jump Rope Intervals", Intermediate, "15-20 minutes")
    ]),
    ("weight-gain", [
      Exercise("wg-1", "Compound Strength Training", Advanced, "45-60 minutes"),
      Exercise("wg-2", "Progressive Overload Training", Intermediate, "40-50 minutes"),
      Exercise("wg-3", "Full Body Hypertrophy Workout", Intermediate, "50-60 minutes"),
      Exercise("wg-4", "Caloric Surplus Diet Planning", Beginner, "15-20 minutes"),
      Exercise("wg-5", "Rest and Recovery Optimization", Beginner, "10-15 minutes")
    ]),
    ("muscle-gain", [
      Exercise("mg-1", "Hypertrophy Training Split", Intermediate, "45-60 minutes"),
      Exercise("mg-2", "Time Under Tension Training", Intermediate, "40-50 minutes"),
      Exercise("mg-3", "Compound Movement Focus", Advanced, "50-60 minutes"),
      Exercise("mg-4", "Protein Timing and Nutrition", Beginner, "15-20 minutes"),
      Exercise("mg-5", "Progressive Overload Techniques", Intermediate, "30-40 minutes")
    ]),
    ("maintenance", [
      Exercise("mt-1", "Balanced Fitness Routine", Intermediate, "30-45 minutes"),
      Exercise("mt-2", "Functional Fitness Circuit", Beginner, "20-30 minutes"),
      Exercise("mt-3", "Active Recovery Sessions", Beginner, "30-40 minutes"),
      Exercise("mt-4", "Maintenance Nutrition Plan", Beginner, "15-20 minutes"),
      Exercise("mt-5", "Mobility and Flexibility Routine", Beginner, "15-20 minutes")
    ]),
    ("general-fitness", [
      Exercise("gf-1", "Full Body Circuit Training", Intermediate, "30-45 minutes"),
      Exercise("gf-2", "Cardiovascular Endurance Training", Beginner, "20-30 minutes"),
      Exercise("gf-3", "Functional Strength Workout", Intermediate, "30-40 minutes"),
      Exercise("gf-4", "Flexibility and Mobility Session", Beginner, "15-20 minutes"),
      Exercise("gf-5", "Balanced Nutrition Basics", Beginner, "10-15 minutes")
    ])
  ]

  lemma GoalNamesDistinct()
    ensures DistinctNames(GoalTable)
  {
  }

  /** `goalExerciseDatabase` */
  const GoalExerciseDatabase: map<string, seq<Exercise>> := (GoalNamesDistinct(); Record(GoalTable))

  /** The five goals, in source order. */
  const GoalNames: seq<string> := Names(GoalTable)

  /** `getExercisesForGoal`: `goalExerciseDatabase[goal] || []`. */
  function GetExercisesForGoal(goal: string): (r: seq<Exercise>)
    ensures goal in GoalExerciseDatabase ==> r == GoalExerciseDatabase[goal]
    ensures goal !in GoalExerciseDatabase ==> r == []
    ensures r != [] <==> goal in GoalNames
  {
    GoalListSizes();
    GoalKeys();
    if goal in GoalExerciseDatabase then GoalExerciseDatabase[goal] else []
  }

  /** The five goals are weight-loss, weight-gain, muscle-gain, maintenance, general-fitness. */
  lemma GoalNamesValue()
    ensures GoalNames == ["weight-loss", "weight-gain", "muscle-gain", "maintenance", "general-fitness"]
  {
  }

  /** The record's keys are exactly the goal names. */
  lemma GoalKeys()
    ensures forall goal :: goal in GoalExerciseDatabase <==> goal in GoalNames
  {
    GoalNamesDistinct();
    RecordKeys(GoalTable);
  }

  /** There are 5 goal names, none given twice, so the record has 5 keys. */
  lemma GoalCount()
    ensures |GoalNames| == 5 && |GoalExerciseDatabase| == 5
    ensures forall k, l :: 0 <= k < l < |GoalNames| ==> GoalNames[k] != GoalNames[l]
  {
    assert |GoalTable| == 5;
    GoalNamesDistinct();
    RecordSize(GoalTable);
  }

  /**
   * The id prefix of each goal's exercises; ids of different goals differ in their
   * prefix, and all prefixes have the same length.
   */
  function GoalPrefix(goal: string): (p: string)
    ensures |p| == 3
  {
    if goal == "weight-loss" then "wl-"
    else if goal == "weight-gain" then "wg-"
    else if goal == "muscle-gain" then "mg-"
    else if goal == "maintenance" then "mt-"
    else if goal == "general-fitness" then "gf-"
    else "??-"
  }

  /** The ids of each entry, entry by entry. */
  const GoalIds: seq<seq<string>> := [
    ["wl-1", "wl-2", "wl-3", "wl-4", "wl-5"],
    ["wg-1", "wg-2", "wg-3", "wg-4", "wg-5"],
    ["mg-1", "mg-2", "mg-3", "mg-4", "mg-5"],
    ["mt-1", "mt-2", "mt-3", "mt-4", "mt-5"],
    ["gf-1", "gf-2", "gf-3", "gf-4", "gf-5"]
  ]

  lemma GoalEntryIds0()
    ensures Ids(GoalTable[0].1) == GoalIds[0]
    ensures GoalPrefix(GoalTable[0].0) == "wl-"
  {
  }

  lemma GoalIdsNumbered0()
    ensures NumberedFrom(GoalIds[0], "wl-", 1) && |GoalIds[0]| == 5
  {
  }

  lemma GoalEntryIds1()
    ensures Ids(GoalTable[1].1) == GoalIds[1]
    ensures GoalPrefix(GoalTable[1].0) == "wg-"
  {
  }

  lemma GoalIdsNumbered1()
    ensures NumberedFrom(GoalIds[1], "wg-", 1) && |GoalIds[1]| == 5
  {
  }

  lemma GoalEntryIds2()
    ensures Ids(GoalTable[2].1) == GoalIds[2]
    ensures GoalPrefix(GoalTable[2].0) == "mg-"
  {
  }

  lemma GoalIdsNumbered2()
    ensures NumberedFrom(GoalIds[2], "mg-", 1) && |GoalIds[2]| == 5
  {
  }

  lemma GoalEntryIds3()
    ensures Ids(GoalTable[3].1) == GoalIds[3]
    ensures GoalPrefix(GoalTable[3].0) == "mt-"
  {
  }

  lemma GoalIdsNumbered3()
    ensures NumberedFrom(GoalIds[3], "mt-", 1) && |GoalIds[3]| == 5
  {
  }

  lemma GoalEntryIds4()
    ensures Ids(GoalTable[4].1) == GoalIds[4]
    ensures GoalPrefix(GoalTable[4].0) == "gf-"
  {
  }

  lemma GoalIdsNumbered4()
    ensures NumberedFrom(GoalIds[4], "gf-", 1) && |GoalIds[4]| == 5
  {
  }

  /** Each entry lists five exercises, numbered 1 to 5 behind the entry's prefix. */
  lemma GoalEntriesNumbered()
    ensures forall k | 0 <= k < 5 :: |GoalTable[k].1| == 5
    ensures forall k | 0 <= k < 5 :: NumberedFrom(Ids(GoalTable[k].1), GoalPrefix(GoalTable[k].0), 1)
  {
    forall k | 0 <= k < 5
      ensures |GoalTable[k].1| == 5
      ensures NumberedFrom(Ids(GoalTable[k].1), GoalPrefix(GoalTable[k].0), 1)
    {
      if k == 0 {
        GoalEntryIds0();
        GoalIdsNumbered0();
      } else if k == 1 {
        GoalEntryIds1();
        GoalIdsNumbered1();
      } else if k == 2 {
        GoalEntryIds2();
        GoalIdsNumbered2();
      } else if k == 3 {
        GoalEntryIds3();
        GoalIdsNumbered3();
      } else {
        GoalEntryIds4();
        GoalIdsNumbered4();
      }
    }
  }

  /** Every goal has exactly five exercises. */
  lemma GoalListSizes()
    ensures forall goal :: goal in GoalExerciseDatabase ==> |GoalExerciseDatabase[goal]| == 5
  {
    GoalNamesDistinct();
    GoalEntriesNumbered();
    forall goal | goal in GoalExerciseDatabase
      ensures |GoalExerciseDatabase[goal]| == 5
    {
      var k := RecordIndex(GoalTable, goal);
    }
  }

  /** The `i`-th exercise of a goal has id `GoalPrefix(goal) + Decimal(i + 1)`: "wl-1" .. "wl-5" and so on. */
  lemma GoalIdsPrefixed(goal: string, i: nat)
    requires goal in GoalExerciseDatabase && i < |GoalExerciseDatabase[goal]|
    ensures GoalExerciseDatabase[goal][i].id == GoalPrefix(goal) + Decimal(i + 1)
  {
    GoalNamesDistinct();
    GoalEntriesNumbered();
    var k := RecordIndex(GoalTable, goal);
    assert Ids(GoalTable[k].1)[i] == GoalExerciseDatabase[goal][i].id;
  }

  /** Different goals have different prefixes. */
  lemma GoalPrefixInjective(a: string, b: string)
    requires a in GoalExerciseDatabase && b in GoalExerciseDatabase
    requires GoalPrefix(a) == GoalPrefix(b)
    ensures a == b
  {
    GoalKeys();
    GoalNamesValue();
  }

  /** No two exercises of the record share an id. */
  lemma GoalIdsDistinct(a: string, i: nat, b: string, j: nat)
    requires a in GoalExerciseDatabase && i < |GoalExerciseDatabase[a]|
    requires b in GoalExerciseDatabase && j < |GoalExerciseDatabase[b]|
    requires GoalExerciseDatabase[a][i].id == GoalExerciseDatabase[b][j].id
    ensures a == b && i == j
  {
    GoalIdsPrefixed(a, i);
    GoalIdsPrefixed(b, j);
    PrefixedDecimalInjective(GoalPrefix(a), GoalPrefix(b), i + 1, j + 1);
    GoalPrefixInjective(a, b);
  }
}
