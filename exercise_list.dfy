/**
 * The exercise list of src/components/ExerciseList/ExerciseList.tsx: the goal
 * exercises it derives from the signed-in user, and which of its views it shows.
 */
module ExerciseList {
  import opened Wrappers
  import opened ExerciseTypes
  import opened GoalExerciseService
  import opened AuthContext
  import opened TodayExercise

  /** `user?.profile?.fitnessGoal ? getExercisesForGoal(user.profile.fitnessGoal) : []` */
  function GoalExercises(user: Option<User>): (r: seq<Exercise>)
    ensures !HasGoal(user) ==> r == []
    ensures HasGoal(user) ==> r == GetExercisesForGoal(ProfileGoal(user))
  {
    if HasGoal(user) then GetExercisesForGoal(ProfileGoal(user)) else []
  }

  /** The goal list is filled exactly when the user's goal is a key of the goal catalogue. */
  lemma GoalExercisesFilled(user: Option<User>)
    ensures GoalExercises(user) != [] <==> ProfileGoal(user) in GoalNames
  {
    GoalNamesValue();
  }

  /** What the component renders. */
  datatype ListView =
    | NoExercisesFound   // the stand-alone "No exercises found for ..." box
    | ExerciseTabs       // the tabs: injury exercises, goal exercises, today's workout

  /** The stand-alone box when both lists are empty, the tabs otherwise. */
  function ChooseView(exercises: seq<Exercise>, goalExercises: seq<Exercise>): (v: ListView)
    ensures v == NoExercisesFound <==> exercises == [] && goalExercises == []
  {
    if |exercises| == 0 && |goalExercises| == 0 then NoExercisesFound else ExerciseTabs
  }

  /** What the goal tab shows. */
  datatype GoalTab =
    | GoalGrid          // one card per goal exercise
    | CheckBackLater    // "No exercises found for your fitness goal. Please check back later."
    | CompleteProfile   // "Please complete your profile with a fitness goal ..."

  function ChooseGoalTab(user: Option<User>, goalExercises: seq<Exercise>): (t: GoalTab)
    ensures t == GoalGrid <==> goalExercises != []
    ensures t == CheckBackLater <==> goalExercises == [] && HasGoal(user)
    ensures t == CompleteProfile <==> goalExercises == [] && !HasGoal(user)
  {
    if |goalExercises| > 0 then GoalGrid
    else if HasGoal(user) then CheckBackLater
    else CompleteProfile
  }

  /**
   * With the goal list the component derives, the goal tab shows the cards for a
   * catalogue goal, the "check back later" text for any other goal and the
   * "complete your profile" text when there is no goal.
   */
  lemma GoalTabForUser(user: Option<User>)
    ensures ChooseGoalTab(user, GoalExercises(user)) == GoalGrid <==> ProfileGoal(user) in GoalNames
    ensures ChooseGoalTab(user, GoalExercises(user)) == CheckBackLater <==>
      HasGoal(user) && ProfileGoal(user) !in GoalNames
    ensures ChooseGoalTab(user, GoalExercises(user)) == CompleteProfile <==> !HasGoal(user)
  {
    GoalExercisesFilled(user);
  }

  /**
   * The list's `getDifficultyColor` is the same switch as the one of the today view,
   * and a catalogue exercise always gets one of its three named colours.
   */
  lemma BadgeColor(e: Exercise)
    ensures DifficultyColor(e.difficulty.Name()) ==
      match e.difficulty
      case Beginner => "green"
      case Intermediate => "orange"
      case Advanced => "red"
  {
  }
}
