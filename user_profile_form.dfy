/**
 * The profile form of src/components/Auth/UserProfileForm.tsx, shown after sign-up
 * to a user without a profile: the ten profile checks, and a submit that stores the
 * profile, converted to centimetres and kilograms, on the signed-in user.
 */
module UserProfileForm {
  import opened Wrappers
  import opened JsNumerics
  import opened UserProfiles
  import opened AuthContext
  import opened GoalExerciseService
  import opened WorkoutPlans
  import opened TodayExercise
  import opened ExerciseList

  /** The `value`s of this form's goal menu; they are written with underscores. */
  const GoalOptions: seq<string> := ["weight_loss", "muscle_gain", "endurance", "flexibility", "overall_health"]

  /**
   * None of this form's goal values is a key of the goal catalogue or of the weekly
   * plans: a goal chosen here finds no exercises and no plan.
   */
  lemma GoalOptionsUnknown(k: nat)
    requires k < |GoalOptions|
    ensures GoalOptions[k] !in GoalNames
    ensures GetExercisesForGoal(GoalOptions[k]) == []
    ensures FindPlan(WorkoutSchedules, GoalOptions[k]).None?
  {
    GoalNamesValue();
    PlanGoalsAreGoalKeys(GoalOptions[k]);
  }

  /**
   * A user whose goal was chosen on this form sees the "check back later" message
   * on the goal tab instead of any exercises.
   */
  lemma ChosenGoalShowsNothing(user: Option<User>, k: nat)
    requires k < |GoalOptions| && ProfileGoal(user) == GoalOptions[k]
    ensures GoalExercises(user) == []
    ensures ChooseGoalTab(user, GoalExercises(user)) == CheckBackLater
  {
    GoalOptionsUnknown(k);
    GoalTabForUser(user);
  }

  /** The `profile` and `errors` state cells (`isLoading` is not modelled). */
  class ProfileFormView {
    var profile: UserProfile
    var errors: map<Field, string>

    /** Every field empty, the units cm, kg and kg; no errors. */
    constructor()
      ensures profile == EmptyProfile && errors == map[]
    {
      profile := EmptyProfile;
      errors := map[];
    }

    /** `validateForm`: the ten profile checks; valid exactly when none fails. */
    method ValidateForm(num: Numerics) returns (isValid: bool)
      modifies this
      ensures profile == old(profile)
      ensures errors == ProfileErrors(num, profile)
      ensures isValid <==> errors == map[]
    {
      var newErrors, valid := CheckProfile(num, profile);
      errors := newErrors;
      isValid := valid;
    }

    /** `handleChange`: the named field takes the new value. */
    method HandleChange(f: Field, value: string)
      modifies this
      ensures profile == With(old(profile), f, value)
      ensures errors == old(errors)
    {
      profile := With(profile, f, value);
    }

    /**
     * `handleSubmit`: an invalid form stops after the checks. A valid one hands the
     * converted profile to `updateUserProfile` and then calls `onProfileComplete`
     * when one was given; `completed` says whether it was called.
     */
    method HandleSubmit(num: Numerics, auth: AuthProvider, hasOnProfileComplete: bool) returns (completed: bool)
      modifies this, auth
      ensures profile == old(profile)
      ensures errors == ProfileErrors(num, profile)
      ensures errors != map[] ==> auth.user == old(auth.user)
      ensures errors == map[] ==> auth.user == UpdatedUser(old(auth.user), InStandardUnits(num, profile))
      ensures completed <==> errors == map[] && hasOnProfileComplete
    {
      var isValid := ValidateForm(num);
      if !isValid {
        return false;
      }
      var standardWeight, standardHeight, standardTargetWeight := ConvertToStandardUnits(num, profile);
      var standardProfile := profile.(weight := standardWeight, height := standardHeight,
        targetWeight := standardTargetWeight);
      auth.UpdateUserProfile(standardProfile);
      completed := hasOnProfileComplete;
    }
  }
}
