/**
 * The navigation state of src/App.tsx (`AppContent`): the selected injury, its
 * exercises and whether the goal exercises are shown, and the screen the root
 * route renders from them.
 */
module App {
  import opened ExerciseTypes
  import opened ExerciseService

  /** What the app renders at the root route. */
  datatype Screen =
    | AuthScreen          // `<Auth />`, for a visitor who is not signed in
    | InjuryFormScreen    // `<InjuryForm ... />`
    | ExerciseListScreen  // `<ExerciseList ... />`

  /**
   * The screen for the root route: Auth for a visitor, whatever the navigation
   * state; otherwise the injury form until an injury is selected or the goal
   * exercises are asked for, and the exercise list from then on.
   */
  function RootScreen(isAuthenticated: bool, selectedInjury: string, showGoalExercises: bool): (s: Screen)
    ensures s == AuthScreen <==> !isAuthenticated
    ensures s == InjuryFormScreen <==> isAuthenticated && selectedInjury == "" && !showGoalExercises
    ensures s == ExerciseListScreen <==> isAuthenticated && (selectedInjury != "" || showGoalExercises)
  {
    if !isAuthenticated then AuthScreen
    else if selectedInjury == "" && !showGoalExercises then InjuryFormScreen
    else ExerciseListScreen
  }

  /** The three state cells of `AppContent`. */
  class AppContent {
    var selectedInjury: string
    var exercises: seq<Exercise>
    var showGoalExercises: bool

    /** `useState('')`, `useState([])`, `useState(false)` */
    constructor()
      ensures selectedInjury == "" && exercises == [] && !showGoalExercises
    {
      selectedInjury := "";
      exercises := [];
      showGoalExercises := false;
    }

    /** `handleInjurySubmit`: the injury and its exercises, goal exercises off. */
    method HandleInjurySubmit(injury: string)
      modifies this
      ensures selectedInjury == injury && !showGoalExercises
      ensures exercises == GetExercisesForInjury(injury)
    {
      selectedInjury := injury;
      showGoalExercises := false;
      var recommendedExercises := GetExercisesForInjury(injury);
      exercises := recommendedExercises;
    }

    /** `handleGoalSelect`: no injury, no injury exercises, goal exercises on. */
    method HandleGoalSelect()
      modifies this
      ensures selectedInjury == "" && exercises == [] && showGoalExercises
    {
      selectedInjury := "";
      showGoalExercises := true;
      exercises := [];
    }

    /** `handleBack`: exactly the initial state. */
    method HandleBack()
      modifies this
      ensures selectedInjury == "" && exercises == [] && !showGoalExercises
    {
      selectedInjury := "";
      showGoalExercises := false;
      exercises := [];
    }

    /** The screen of the root route for this state. */
    function Screen(isAuthenticated: bool): (s: Screen)
      reads this
      ensures s == RootScreen(isAuthenticated, selectedInjury, showGoalExercises)
    {
      RootScreen(isAuthenticated, selectedInjury, showGoalExercises)
    }
  }

  /**
   * After an injury from the table is submitted, a signed-in user sees the exercise
   * list, and it is not empty.
   */
  lemma InjurySubmitShowsList(injury: string)
    requires injury in InjuryNames
    ensures RootScreen(true, injury, false) == ExerciseListScreen
    ensures GetExercisesForInjury(injury) != []
  {
  }

  /** After `handleBack` (and initially) a signed-in user is back on the injury form. */
  lemma BackShowsForm()
    ensures RootScreen(true, "", false) == InjuryFormScreen
    ensures RootScreen(true, "", true) == ExerciseListScreen
  {
  }
}
