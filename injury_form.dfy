/**
 * The injury form of src/components/InjuryForm/InjuryForm.tsx: a menu of injuries,
 * a guarded submit, and the goal button that needs a profile goal.
 */
module InjuryForm {
  import opened Wrappers
  import opened Tables
  import opened ExerciseService
  import opened AuthContext

  /** The `value`s of the injury menu, in menu order. */
  const InjuryOptions: seq<string> := [
    "Shoulder Pain", "Knee Pain", "Back Pain", "Ankle Sprain", "Wrist Pain", "Hip Pain",
    "Neck Pain", "Elbow Pain", "Hamstring Strain", "Plantar Fasciitis", "Tennis Elbow",
    "Groin Strain", "Shin Splints", "Rotator Cuff Injury", "IT Band Syndrome", "Carpal Tunnel"]

  /** The menu offers exactly the injuries of the catalogue, each once. */
  lemma InjuryOptionsAreKeys()
    ensures forall name :: name in InjuryOptions <==> name in ExerciseDatabase
    ensures |InjuryOptions| == |ExerciseDatabase|
    ensures forall k, l :: 0 <= k < l < |InjuryOptions| ==> InjuryOptions[k] != InjuryOptions[l]
  {
    InjuryKeys();
    InjuryCount();
    InjuryNamesValue();
    InjuryOptionsDistinct();
  }

  /** No injury is offered twice. */
  lemma InjuryOptionsDistinct()
    ensures forall k, l :: 0 <= k < l < |InjuryOptions| ==> InjuryOptions[k] != InjuryOptions[l]
  {
  }

  /** The menu lists the injuries in the order of their ids, not in the order of the catalogue's literal. */
  lemma InjuryOptionsById()
    ensures InjuryOptions == Names(InjuryTableById)
    ensures InjuryOptions != InjuryNames
  {
    InjuryNamesValue();
    InjuryNamesByIdValue();
  }

  /** Whatever injury the menu offers, its lookup gives exercises, never the empty fallback. */
  lemma OfferedInjuriesHaveExercises(injury: string)
    requires injury in InjuryOptions
    ensures injury in ExerciseDatabase
    ensures GetExercisesForInjury(injury) == ExerciseDatabase[injury] != []
  {
    InjuryOptionsAreKeys();
    InjuryKeys();
  }

  /** The goal button is disabled exactly when the user has no fitness goal. */
  function GoalButtonDisabled(user: Option<User>): (disabled: bool)
    ensures disabled <==> ProfileGoal(user) == ""
  {
    !HasGoal(user)
  }

  /** The `injury` state cell. */
  class InjuryFormView {
    var injury: string

    /** `useState('')` */
    constructor()
      ensures injury == ""
    {
      injury := "";
    }

    /** The menu's `onChange`. */
    method HandleChange(value: string)
      modifies this
      ensures injury == value
    {
      injury := value;
    }

    /** `handleSubmit`: the injury handed to `onSubmit`, if it is called at all. */
    method HandleSubmit() returns (submitted: Option<string>)
      ensures injury == "" ==> submitted == None
      ensures injury != "" ==> submitted == Some(injury)
    {
      if injury != "" {
        submitted := Some(injury);
      } else {
        submitted := None;
      }
    }

    /** The submit button is disabled exactly when no injury is chosen. */
    function SubmitDisabled(): (disabled: bool)
      reads this
      ensures disabled <==> injury == ""
    {
      injury == ""
    }
  }
}
