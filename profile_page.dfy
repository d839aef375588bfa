/**
 * The profile page of src/components/ProfilePage/ProfilePage.tsx: the shown and the
 * edited copy of the user's profile, edit mode, the profile checks, saving with the
 * unit conversion, and the body mass index with its four categories.
 */
module ProfilePage {
  import opened Wrappers
  import opened JsNumerics
  import opened UserProfiles
  import opened AuthContext
  import opened GoalExerciseService
  import Signup

  /** `heightInMeters`: the height read as inches when its unit says so, as centimetres otherwise. */
  function HeightInMetres(num: Numerics, p: UserProfile): Option<real>
  {
    match num.parseFloat(p.height)
    case None => None
    case Some(x) => Some(if p.heightUnit == "inches" then x * MetresPerInch else x / 100.0)
  }

  /** `weightInKg`: the weight read as pounds when its unit says so, as kilograms otherwise. */
  function WeightInKg(num: Numerics, p: UserProfile): Option<real>
  {
    match num.parseFloat(p.weight)
    case None => None
    case Some(x) => Some(if p.weightUnit == "lbs" then x * KgPerLb else x)
  }

  /**
   * The index `calculateBMI` computes before rounding; `None` where it returns
   * `null`: no profile, an empty height or weight, or a reading that is `NaN` or
   * not positive. Otherwise it is the weight over the square of the height.
   */
  function BmiValue(num: Numerics, profile: Option<UserProfile>): (r: Option<real>)
    ensures r.Some? <==>
      profile.Some? && profile.value.height != "" && profile.value.weight != "" &&
      HeightInMetres(num, profile.value).Some? && HeightInMetres(num, profile.value).value > 0.0 &&
      WeightInKg(num, profile.value).Some? && WeightInKg(num, profile.value).value > 0.0
    ensures r.Some? ==> r.value > 0.0
    ensures r.Some? ==> var h := HeightInMetres(num, profile.value).value;
      r.value * (h * h) == WeightInKg(num, profile.value).value
  {
    if profile.None? || profile.value.height == "" || profile.value.weight == "" then None
    else
      var h := HeightInMetres(num, profile.value);
      var w := WeightInKg(num, profile.value);
      if h.None? || w.None? || h.value <= 0.0 || w.value <= 0.0 then None
      else Some(w.value / (h.value * h.value))
  }

  /** `calculateBMI`: the index with one decimal, or `null`. */
  function CalculateBmi(num: Numerics, profile: Option<UserProfile>): (r: Option<string>)
    ensures r.None? <==> BmiValue(num, profile).None?
    ensures r.Some? ==> r.value == num.toFixed1(BmiValue(num, profile).value)
  {
    match BmiValue(num, profile)
    case None => None
    case Some(bmi) => Some(num.toFixed1(bmi))
  }

  /** What `getBMICategory` returns. */
  datatype BmiInfo = BmiInfo(category: string, color: string)

  /** The four categories, from the lowest index to the highest. */
  const Categories: seq<BmiInfo> := [
    BmiInfo("Underweight", "blue"), BmiInfo("Normal weight", "green"),
    BmiInfo("Overweight", "orange"), BmiInfo("Obese", "red")]

  /** `getBMICategory` */
  function GetBmiCategory(bmi: real): (info: BmiInfo)
    ensures info == BmiInfo("Underweight", "blue") <==> bmi < 18.5
    ensures info == BmiInfo("Normal weight", "green") <==> 18.5 <= bmi < 25.0
    ensures info == BmiInfo("Overweight", "orange") <==> 25.0 <= bmi < 30.0
    ensures info == BmiInfo("Obese", "red") <==> 30.0 <= bmi
  {
    if bmi < 18.5 then BmiInfo("Underweight", "blue")
    else if bmi < 25.0 then BmiInfo("Normal weight", "green")
    else if bmi < 30.0 then BmiInfo("Overweight", "orange")
    else BmiInfo("Obese", "red")
  }

  /** The position of an index's category in `Categories`: every index has exactly one. */
  function Rank(bmi: real): (k: nat)
    ensures k < |Categories| && GetBmiCategory(bmi) == Categories[k]
    ensures forall j :: 0 <= j < |Categories| && GetBmiCategory(bmi) == Categories[j] ==> j == k
  {
    if bmi < 18.5 then 0 else if bmi < 25.0 then 1 else if bmi < 30.0 then 2 else 3
  }

  /** A larger index never falls into an earlier category. */
  lemma CategoryMonotone(a: real, b: real)
    requires a <= b
    ensures Rank(a) <= Rank(b)
  {
  }

  /**
   * `bmi ? getBMICategory(parseFloat(bmi)) : null`: the category is taken from the
   * rounded text read back. Where that reading is `NaN` every comparison is false,
   * so the category is the last one.
   */
  function ShownCategory(num: Numerics, profile: Option<UserProfile>): (r: Option<BmiInfo>)
    ensures r.Some? ==> CalculateBmi(num, profile).Some? && r.value in Categories
    ensures CalculateBmi(num, profile).Some? && CalculateBmi(num, profile).value != "" ==> r.Some?
  {
    match CalculateBmi(num, profile)
    case None => None
    case Some(text) =>
      if text == "" then None
      else match num.parseFloat(text)
        case None => Some(BmiInfo("Obese", "red"))
        case Some(x) => Some(GetBmiCategory(x))
  }

  /**
   * The same body entered in inches and pounds, or in centimetres and kilograms,
   * gets the same index.
   */
  lemma UnitsAgree(num: Numerics, p: UserProfile, q: UserProfile, x: real, y: real)
    requires p.heightUnit == "inches" && p.weightUnit == "lbs"
    requires q.heightUnit != "inches" && q.weightUnit != "lbs"
    requires p.height != "" && p.weight != "" && q.height != "" && q.weight != ""
    requires num.parseFloat(p.height) == Some(x) && num.parseFloat(q.height) == Some(x * CmPerInch)
    requires num.parseFloat(p.weight) == Some(y) && num.parseFloat(q.weight) == Some(y * KgPerLb)
    ensures BmiValue(num, Some(p)) == BmiValue(num, Some(q))
  {
    assert HeightInMetres(num, p) == HeightInMetres(num, q);
    assert WeightInKg(num, p) == WeightInKg(num, q);
    var b := BmiValue(num, Some(p));
    var c := BmiValue(num, Some(q));
    if b.Some? {
      var h := HeightInMetres(num, p).value;
      assert b.value * (h * h) == c.value * (h * h);
    }
  }

  /** The height text of the details card. */
  function HeightShown(num: Numerics, p: UserProfile): string
  {
    if p.heightUnit == "inches" then
      match num.parseFloat(p.height)
      case None => "NaN inches"
      case Some(x) => num.toFixed1(x / CmPerInch) + " inches"
    else p.height + " cm"
  }

  /**
   * Saving a height entered in inches stores centimetres but keeps the unit
   * 'inches'. The details card divides by 2.54 and shows the entered figure again,
   * while the index reads the stored centimetres as inches: its height is 2.54 times
   * the entered one. The premise is that `toFixed(2)` keeps the converted value.
   */
  lemma SavedInchesMisread(num: Numerics, p: UserProfile, x: real)
    requires p.heightUnit == "inches" && num.parseFloat(p.height) == Some(x)
    requires num.parseFloat(num.toFixed2(x * CmPerInch)) == Some(x * CmPerInch)
    ensures InStandardUnits(num, p).heightUnit == "inches"
    ensures HeightShown(num, InStandardUnits(num, p)) == num.toFixed1(x) + " inches"
    ensures HeightInMetres(num, p) == Some(x * MetresPerInch)
    ensures HeightInMetres(num, InStandardUnits(num, p)) == Some(CmPerInch * (x * MetresPerInch))
  {
    assert x * CmPerInch / CmPerInch == x;
  }

  /**
   * So the index shown after such a save is the true one divided by 2.54 squared
   * (about 6.45), for a weight entered in kilograms.
   */
  lemma SavedInchesBmiShrinks(num: Numerics, p: UserProfile, x: real)
    requires p.heightUnit == "inches" && p.height != "" && num.parseFloat(p.height) == Some(x) && x > 0.0
    requires p.weightUnit != "lbs"
    requires num.parseFloat(num.toFixed2(x * CmPerInch)) == Some(x * CmPerInch)
    requires num.toFixed2(x * CmPerInch) != ""
    requires BmiValue(num, Some(p)).Some?
    ensures BmiValue(num, Some(InStandardUnits(num, p))).Some?
    ensures BmiValue(num, Some(InStandardUnits(num, p))).value * (CmPerInch * CmPerInch) ==
      BmiValue(num, Some(p)).value
  {
    var q := InStandardUnits(num, p);
    SavedInchesMisread(num, p, x);
    assert WeightInKg(num, q) == WeightInKg(num, p);
    var h := x * MetresPerInch;
    var w := WeightInKg(num, p).value;
    var b := BmiValue(num, Some(p)).value;
    assert BmiValue(num, Some(q)).Some?;
    var c := BmiValue(num, Some(q)).value;
    assert b * (h * h) == w;
    assert c * ((CmPerInch * h) * (CmPerInch * h)) == w;
    assert c * (CmPerInch * CmPerInch) * (h * h) == b * (h * h);
  }

  /**
   * After a save the edited copy holds the converted profile with its units unchanged,
   * so the next save converts an inch height, and a pound weight, once more.
   */
  lemma SecondSaveConvertsAgain(num: Numerics, p: UserProfile, x: real, y: real)
    requires p.heightUnit == "inches" && num.parseFloat(p.height) == Some(x)
    requires num.parseFloat(num.toFixed2(x * CmPerInch)) == Some(x * CmPerInch)
    ensures InStandardUnits(num, InStandardUnits(num, p)).heightUnit == "inches"
    ensures InStandardUnits(num, InStandardUnits(num, p)).height == num.toFixed2(x * CmPerInch * CmPerInch)
    ensures (p.weightUnit == "lbs" && num.parseFloat(p.weight) == Some(y) &&
             num.parseFloat(num.toFixed2(y * KgPerLb)) == Some(y * KgPerLb)) ==>
      InStandardUnits(num, InStandardUnits(num, p)).weight == num.toFixed2(y * KgPerLb * KgPerLb)
  {
  }

  /** The goal menu of the edit form is the sign-up form's: the catalogue's keys, in order. */
  lemma GoalOptionsAreSignups()
    ensures GoalOptions == Signup.GoalOptions
    ensures forall k :: 0 <= k < |GoalOptions| ==> GoalOptions[k].0 == GoalNames[k]
  {
    Signup.GoalOptionsAreKeys();
  }

  /** The `value`s and texts of the goal menu of the edit form. */
  const GoalOptions: seq<(string, string)> := [
    ("weight-loss", "Weight Loss"), ("weight-gain", "Weight Gain"), ("muscle-gain", "Muscle Gain"),
    ("maintenance", "Maintenance"), ("general-fitness", "General Fitness")]

  /** What the page renders. */
  datatype PageView = LoadingProfile | ProfileDetails

  /** The `isEditing`, `profile`, `editedProfile` and `errors` state cells (`isLoading` is not modelled). */
  class ProfilePageView {
    var isEditing: bool
    var profile: Option<UserProfile>
    var editedProfile: Option<UserProfile>
    var errors: map<Field, string>

    constructor()
      ensures !isEditing && profile == None && editedProfile == None && errors == map[]
    {
      isEditing := false;
      profile := None;
      editedProfile := None;
      errors := map[];
    }

    /**
     * The effect run when the user changes. A user's profile becomes both copies;
     * a user without one gets the empty profile in both, and edit mode opens.
     * Without a user nothing changes.
     */
    method OnUserChange(user: Option<User>)
      modifies this
      ensures errors == old(errors)
      ensures user.None? ==> isEditing == old(isEditing) && profile == old(profile) && editedProfile == old(editedProfile)
      ensures user.Some? && user.value.profile.Some? ==>
        profile == user.value.profile && editedProfile == user.value.profile && isEditing == old(isEditing)
      ensures user.Some? && user.value.profile.None? ==>
        profile == Some(EmptyProfile) && editedProfile == Some(EmptyProfile) && isEditing
    {
      if user.Some? {
        if user.value.profile.Some? {
          profile := user.value.profile;
          editedProfile := user.value.profile;
        } else {
          var emptyProfile := EmptyProfile;
          profile := Some(emptyProfile);
          editedProfile := Some(emptyProfile);
          isEditing := true;
        }
      }
    }

    /** `handleEditToggle`: leaving edit mode throws the edits and the errors away. */
    method HandleEditToggle()
      modifies this
      ensures isEditing == !old(isEditing)
      ensures profile == old(profile)
      ensures old(isEditing) ==> editedProfile == profile && errors == map[]
      ensures !old(isEditing) ==> editedProfile == old(editedProfile) && errors == old(errors)
    {
      if isEditing {
        editedProfile := profile;
        errors := map[];
      }
      isEditing := !isEditing;
    }

    /** `validateForm`: false, with the errors left alone, when there is nothing to check. */
    method ValidateForm(num: Numerics) returns (isValid: bool)
      modifies this
      ensures isEditing == old(isEditing) && profile == old(profile) && editedProfile == old(editedProfile)
      ensures editedProfile.None? ==> !isValid && errors == old(errors)
      ensures editedProfile.Some? ==> errors == ProfileErrors(num, editedProfile.value)
      ensures editedProfile.Some? ==> (isValid <==> errors == map[])
    {
      if editedProfile.None? {
        return false;
      }
      var newErrors, valid := CheckProfile(num, editedProfile.value);
      errors := newErrors;
      isValid := valid;
    }

    /**
     * `handleSaveProfile`: a form that passes its checks is converted, handed to
     * `updateUserProfile` and shown, and edit mode closes. The handler itself leaves
     * the edited copy alone; the `[user]` effect that follows replaces it
     * (`SaveAndRefresh`). Otherwise only the errors may change.
     */
    method HandleSaveProfile(num: Numerics, auth: AuthProvider)
      modifies this, auth
      ensures editedProfile == old(editedProfile)
      ensures editedProfile.None? ==> errors == old(errors)
      ensures editedProfile.Some? ==> errors == ProfileErrors(num, editedProfile.value)
      ensures editedProfile.Some? && errors == map[] ==>
        var saved := InStandardUnits(num, editedProfile.value);
        auth.user == UpdatedUser(old(auth.user), saved) && profile == Some(saved) && !isEditing
      ensures !(editedProfile.Some? && errors == map[]) ==>
        auth.user == old(auth.user) && profile == old(profile) && isEditing == old(isEditing)
    {
      var isValid := ValidateForm(num);
      if !isValid || editedProfile.None? {
        return;
      }
      var edited := editedProfile.value;
      var standardWeight, standardHeight, standardTargetWeight := ConvertToStandardUnits(num, edited);
      var standardProfile := edited.(weight := standardWeight, height := standardHeight,
        targetWeight := standardTargetWeight);
      auth.UpdateUserProfile(standardProfile);
      profile := Some(standardProfile);
      isEditing := false;
    }

    /**
     * A save as the page runs it: `handleSaveProfile`, then the `[user]` effect.
     * `updateUserProfile` gives a signed-in user a new user object, so the effect
     * fires after every successful save and puts the converted profile into the
     * edited copy too. Without a signed-in user the user does not change and the
     * effect does not fire.
     */
    method SaveAndRefresh(num: Numerics, auth: AuthProvider) returns (refreshed: bool)
      modifies this, auth
      ensures refreshed <==>
        old(editedProfile).Some? && ProfileErrors(num, old(editedProfile).value) == map[] && old(auth.user).Some?
      ensures refreshed ==>
        var saved := InStandardUnits(num, old(editedProfile).value);
        auth.user == UpdatedUser(old(auth.user), saved) &&
        profile == Some(saved) && editedProfile == Some(saved) && !isEditing
      ensures !refreshed ==> editedProfile == old(editedProfile)
      ensures old(editedProfile).Some? ==> errors == ProfileErrors(num, old(editedProfile).value)
      ensures old(editedProfile).None? ==> errors == old(errors)
      ensures !(old(editedProfile).Some? && ProfileErrors(num, old(editedProfile).value) == map[]) ==>
        auth.user == old(auth.user) && profile == old(profile) && isEditing == old(isEditing)
      ensures old(editedProfile).Some? && ProfileErrors(num, old(editedProfile).value) == map[] && old(auth.user).None? ==>
        auth.user == None && profile == Some(InStandardUnits(num, old(editedProfile).value)) && !isEditing
    {
      var willSave := editedProfile.Some? && ProfileErrors(num, editedProfile.value) == map[];
      var signedIn := auth.user.Some?;
      HandleSaveProfile(num, auth);
      refreshed := willSave && signedIn;
      if refreshed {
        OnUserChange(auth.user);
      }
    }

    /** `handleChange`: the named field of the edited copy takes the new value, when there is one. */
    method HandleChange(f: Field, value: string)
      modifies this
      ensures isEditing == old(isEditing) && profile == old(profile) && errors == old(errors)
      ensures old(editedProfile).None? ==> editedProfile == None
      ensures old(editedProfile).Some? ==> editedProfile == Some(With(old(editedProfile).value, f, value))
    {
      if editedProfile.Some? {
        editedProfile := Some(With(editedProfile.value, f, value));
      }
    }

    /** "Loading profile..." until there is a profile to show. */
    function View(): (v: PageView)
      reads this
      ensures v == LoadingProfile <==> profile.None?
    {
      if profile.None? then LoadingProfile else ProfileDetails
    }
  }
}
