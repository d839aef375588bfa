/**
 * The sign-up form of src/components/Auth/Signup.tsx: e-mail, password and its
 * confirmation together with a full profile; thirteen checks, and a submit that
 * signs the user up with the profile converted to centimetres and kilograms.
 */
module Signup {
  import opened Wrappers
  import opened JsNumerics
  import opened FormChecks
  import opened UserProfiles
  import opened AuthContext
  import opened GoalExerciseService
  import opened GoalLabel

  /** `SignupForm`: the three account fields and the profile fields. */
  datatype SignupForm = SignupForm(email: string, password: string, confirmPassword: string, profile: UserProfile)

  /** The `name` of a form control of the sign-up form. */
  datatype SignupField = Email | Password | ConfirmPassword | ProfileField(field: Field)

  /** The form as it starts: everything empty, units cm, kg and kg. */
  const InitialForm: SignupForm := SignupForm("", "", "", EmptyProfile)

  function FormGet(form: SignupForm, k: SignupField): string
  {
    match k
    case Email => form.email
    case Password => form.password
    case ConfirmPassword => form.confirmPassword
    case ProfileField(f) => Get(form.profile, f)
  }

  /** `{ ...prev, [name]: value }` */
  function FormWith(form: SignupForm, k: SignupField, value: string): (r: SignupForm)
    ensures FormGet(r, k) == value
    ensures forall j :: j != k ==> FormGet(r, j) == FormGet(form, j)
  {
    match k
    case Email => form.(email := value)
    case Password => form.(password := value)
    case ConfirmPassword => form.(confirmPassword := value)
    case ProfileField(f) => form.(profile := With(form.profile, f, value))
  }

  /** The confirmation check. */
  function ConfirmError(password: string, confirmPassword: string): (r: Option<string>)
    ensures r.Some? ==> r.value != ""
  {
    if confirmPassword == "" then Some("Please confirm your password")
    else if password != confirmPassword then Some("Passwords do not match")
    else None
  }

  /** An empty confirmation is reported as missing; any other is rejected exactly when it differs from the password. */
  lemma ConfirmErrorCases(password: string, confirmPassword: string)
    ensures confirmPassword == "" ==> ConfirmError(password, confirmPassword) == Some("Please confirm your password")
    ensures confirmPassword != "" ==>
      (ConfirmError(password, confirmPassword) == Some("Passwords do not match") <==> password != confirmPassword)
    ensures ConfirmError(password, confirmPassword) == None <==> confirmPassword != "" && confirmPassword == password
  {
  }

  /** The record entry of one check: nothing when it passes, its message under `k` otherwise. */
  function Entry(k: SignupField, error: Option<string>): (m: map<SignupField, string>)
    ensures error.None? ==> m == map[]
    ensures error.Some? ==> m == map[k := error.value]
  {
    match error
    case None => map[]
    case Some(text) => map[k := text]
  }

  /** The profile checks' messages, under the sign-up form's names for the profile fields. */
  function Lifted(errors: map<Field, string>): (m: map<SignupField, string>)
    ensures forall f :: ProfileField(f) in m <==> f in errors
    ensures forall f :: f in errors ==> m[ProfileField(f)] == errors[f]
    ensures forall k :: k in m ==> k.ProfileField?
  {
    map f | f in errors :: ProfileField(f) := errors[f]
  }

  /** The check of one control: `Some` message when it fails. */
  function CheckOf(num: Numerics, form: SignupForm, k: SignupField): Option<string>
  {
    match k
    case Email => EmailError(form.email)
    case Password => PasswordError(form.password)
    case ConfirmPassword => ConfirmError(form.password, form.confirmPassword)
    case ProfileField(f) => if FieldFails(num, form.profile, f) then Some(FieldMessage(f)) else None
  }

  /** The record built from the three account checks' outcomes and the profile checks' record. */
  function Assemble(email: Option<string>, password: Option<string>, confirm: Option<string>,
                    profileErrors: map<Field, string>): map<SignupField, string>
  {
    Entry(Email, email) + Entry(Password, password) + Entry(ConfirmPassword, confirm) + Lifted(profileErrors)
  }

  /** Which controls an assembled record holds, and with what. */
  lemma AssembleAt(email: Option<string>, password: Option<string>, confirm: Option<string>,
                   profileErrors: map<Field, string>, k: SignupField)
    ensures var m := Assemble(email, password, confirm, profileErrors);
      var outcome := match k
        case Email => email
        case Password => password
        case ConfirmPassword => confirm
        case ProfileField(f) => if f in profileErrors then Some(profileErrors[f]) else None;
      (k in m <==> outcome.Some?) && (k in m ==> m[k] == outcome.value)
  {
    var a1 := Entry(Email, email);
    var a2 := a1 + Entry(Password, password);
    var a3 := a2 + Entry(ConfirmPassword, confirm);
    var lifted := Lifted(profileErrors);
    if k.ProfileField? {
      assert k !in a1 && k !in a2 && k !in a3;
    } else {
      assert k !in lifted;
      if k == Email {
        assert k !in Entry(Password, password) && k !in Entry(ConfirmPassword, confirm);
      } else if k == Password {
        assert k !in Entry(ConfirmPassword, confirm);
      }
    }
  }

  /** The error record `validateForm` stores. */
  function SignupErrors(num: Numerics, form: SignupForm): map<SignupField, string>
  {
    Assemble(EmailError(form.email), PasswordError(form.password),
      ConfirmError(form.password, form.confirmPassword), ProfileErrors(num, form.profile))
  }

  /** Each control is in the record exactly when its check fails, and with that check's message. */
  lemma SignupErrorsAt(num: Numerics, form: SignupForm, k: SignupField)
    ensures k in SignupErrors(num, form) <==> CheckOf(num, form, k).Some?
    ensures k in SignupErrors(num, form) ==> SignupErrors(num, form)[k] == CheckOf(num, form, k).value
  {
    AssembleAt(EmailError(form.email), PasswordError(form.password),
      ConfirmError(form.password, form.confirmPassword), ProfileErrors(num, form.profile), k);
  }

  /** No check fails exactly when the record is empty. */
  lemma SignupErrorsEmpty(num: Numerics, form: SignupForm)
    ensures SignupErrors(num, form) == map[] <==> forall k :: CheckOf(num, form, k).None?
  {
    if SignupErrors(num, form) == map[] {
      forall k
        ensures CheckOf(num, form, k).None?
      {
        SignupErrorsAt(num, form, k);
      }
    } else {
      var k :| k in SignupErrors(num, form);
      SignupErrorsAt(num, form, k);
    }
  }

  /**
   * The form passes exactly when the address matches the pattern, the password has
   * six code units, the confirmation repeats it and the profile passes its checks.
   */
  lemma SignupValidIff(num: Numerics, form: SignupForm)
    ensures SignupErrors(num, form) == map[] <==>
      EmailPattern(form.email) && Utf16Length(form.password) >= 6 &&
      form.confirmPassword == form.password && ProfileErrors(num, form.profile) == map[]
  {
    AssembleEmpty(EmailError(form.email), PasswordError(form.password),
      ConfirmError(form.password, form.confirmPassword), ProfileErrors(num, form.profile));
    EmailErrorCases(form.email);
    PasswordErrorCases(form.password);
    ConfirmErrorCases(form.password, form.confirmPassword);
  }

  /** Lifting keeps a record empty or not. */
  lemma LiftedEmpty(errors: map<Field, string>)
    ensures Lifted(errors) == map[] <==> errors == map[]
  {
    if errors != map[] {
      var f :| f in errors;
      assert ProfileField(f) in Lifted(errors);
    }
  }

  /** An assembled record is empty exactly when every check it is built from passed. */
  lemma AssembleEmpty(email: Option<string>, password: Option<string>, confirm: Option<string>,
                      profileErrors: map<Field, string>)
    ensures Assemble(email, password, confirm, profileErrors) == map[] <==>
      email.None? && password.None? && confirm.None? && profileErrors == map[]
  {
    var m := Assemble(email, password, confirm, profileErrors);
    if m == map[] {
      AssembleAt(email, password, confirm, profileErrors, Email);
      AssembleAt(email, password, confirm, profileErrors, Password);
      AssembleAt(email, password, confirm, profileErrors, ConfirmPassword);
      LiftedEmpty(profileErrors);
    }
  }

  /**
   * The profile handed to `signup`: the form's profile fields, with weight, height
   * and target weight converted where their unit asks for it and the unit choices
   * copied; e-mail and password are not part of it.
   */
  function SignupProfile(num: Numerics, form: SignupForm): (p: UserProfile)
    ensures p == InStandardUnits(num, form.profile)
  {
    var f := form.profile;
    UserProfile(
      f.username, f.age,
      InKg(num, f.weight, f.weightUnit),
      InCm(num, f.height, f.heightUnit),
      f.gender, f.fitnessLevel, f.workoutFrequency, f.workoutDuration, f.fitnessGoal,
      InKg(num, f.targetWeight, f.targetWeightUnit),
      f.heightUnit, f.weightUnit, f.targetWeightUnit)
  }

  /** The `value`s and texts of the goal menu, in menu order. */
  const GoalOptions: seq<(string, string)> := [
    ("weight-loss", "Weight Loss"), ("weight-gain", "Weight Gain"), ("muscle-gain", "Muscle Gain"),
    ("maintenance", "Maintenance"), ("general-fitness", "General Fitness")]

  /** The goal menu offers exactly the goal catalogue's keys, in its order. */
  lemma GoalOptionsAreKeys()
    ensures |GoalOptions| == |GoalNames|
    ensures forall k :: 0 <= k < |GoalOptions| ==> GoalOptions[k].0 == GoalNames[k]
  {
    GoalNamesValue();
  }

  /** Each goal is shown under the label the other views compute from its key. */
  lemma GoalOptionLabel(k: nat)
    requires k < |GoalOptions|
    ensures Label(GoalOptions[k].0) == GoalOptions[k].1
  {
    var goal := GoalOptions[k].0;
    if k == 0 {
      WeightLossLabel(goal);
    } else if k == 1 {
      WeightGainLabel(goal);
    } else if k == 2 {
      MuscleGainLabel(goal);
    } else if k == 3 {
      MaintenanceLabel(goal);
    } else {
      GeneralFitnessLabel(goal);
    }
  }

  /** The e-mail step of `validateForm`: its entry is added and the flag cleared when it fails. */
  method CheckEmail(email: string, errors: map<SignupField, string>, valid: bool)
    returns (newErrors: map<SignupField, string>, isValid: bool)
    ensures newErrors == errors + Entry(Email, EmailError(email))
    ensures isValid <==> valid && EmailError(email).None?
  {
    newErrors, isValid := errors, valid;
    if email == "" {
      newErrors := newErrors[Email := "Email is required"];
      isValid := false;
    } else if !TestEmail(email) {
      newErrors := newErrors[Email := "Invalid email format"];
      isValid := false;
    }
  }

  /** The password step of `validateForm`. */
  method CheckPassword(password: string, errors: map<SignupField, string>, valid: bool)
    returns (newErrors: map<SignupField, string>, isValid: bool)
    ensures newErrors == errors + Entry(Password, PasswordError(password))
    ensures isValid <==> valid && PasswordError(password).None?
  {
    newErrors, isValid := errors, valid;
    if password == "" {
      newErrors := newErrors[Password := "Password is required"];
      isValid := false;
    } else if Utf16Length(password) < 6 {
      newErrors := newErrors[Password := "Password must be at least 6 characters"];
      isValid := false;
    }
  }

  /** The confirmation step of `validateForm`. */
  method CheckConfirm(password: string, confirmPassword: string, errors: map<SignupField, string>, valid: bool)
    returns (newErrors: map<SignupField, string>, isValid: bool)
    ensures newErrors == errors + Entry(ConfirmPassword, ConfirmError(password, confirmPassword))
    ensures isValid <==> valid && ConfirmError(password, confirmPassword).None?
  {
    newErrors, isValid := errors, valid;
    if confirmPassword == "" {
      newErrors := newErrors[ConfirmPassword := "Please confirm your password"];
      isValid := false;
    } else if password != confirmPassword {
      newErrors := newErrors[ConfirmPassword := "Passwords do not match"];
      isValid := false;
    }
  }

  /** The `form` and `errors` state cells (`isLoading` is not modelled). */
  class SignupView {
    var form: SignupForm
    var errors: map<SignupField, string>

    constructor()
      ensures form == InitialForm && errors == map[]
    {
      form := InitialForm;
      errors := map[];
    }

    /** `validateForm`: the thirteen checks, in source order; valid exactly when none fails. */
    method ValidateForm(num: Numerics) returns (isValid: bool)
      modifies this
      ensures form == old(form)
      ensures errors == SignupErrors(num, form)
      ensures isValid <==> errors == map[]
    {
      var f := form;
      var newErrors: map<SignupField, string> := map[];
      isValid := true;
      newErrors, isValid := CheckEmail(f.email, newErrors, isValid);
      assert newErrors == Entry(Email, EmailError(f.email));
      newErrors, isValid := CheckPassword(f.password, newErrors, isValid);
      newErrors, isValid := CheckConfirm(f.password, f.confirmPassword, newErrors, isValid);
      var profileErrors, profileValid := CheckProfile(num, f.profile);
      newErrors := newErrors + Lifted(profileErrors);
      isValid := isValid && profileValid;
      AssembleEmpty(EmailError(f.email), PasswordError(f.password), ConfirmError(f.password, f.confirmPassword), profileErrors);
      errors := newErrors;
    }

    /** `handleChange`: the named control takes the new value. */
    method HandleChange(k: SignupField, value: string)
      modifies this
      ensures form == FormWith(old(form), k, value)
      ensures errors == old(errors)
    {
      form := FormWith(form, k, value);
    }

    /**
     * `handleSubmit`: an invalid form stops after the checks. A valid one signs the
     * user up with the converted profile; `signedUp` says whether `onSignupSuccess`
     * is called.
     */
    method HandleSubmit(num: Numerics, auth: AuthProvider) returns (signedUp: bool)
      modifies this, auth
      ensures form == old(form)
      ensures errors == SignupErrors(num, form)
      ensures signedUp <==> errors == map[]
      ensures signedUp ==> auth.user == Some(User(form.email, SimulatedId, Some(SignupProfile(num, form))))
      ensures !signedUp ==> auth.user == old(auth.user)
    {
      var isValid := ValidateForm(num);
      if !isValid {
        return false;
      }
      var f := form;
      var standardWeight, standardHeight, standardTargetWeight := ConvertToStandardUnits(num, f.profile);
      var profile := UserProfile(
        f.profile.username, f.profile.age, standardWeight, standardHeight, f.profile.gender,
        f.profile.fitnessLevel, f.profile.workoutFrequency, f.profile.workoutDuration, f.profile.fitnessGoal,
        standardTargetWeight, f.profile.heightUnit, f.profile.weightUnit, f.profile.targetWeightUnit);
      assert profile == SignupProfile(num, f);
      auth.Signup(f.email, f.password, Some(profile));
      signedUp := true;
    }
  }
}
