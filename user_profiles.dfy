/**
 * The user profile record. src/context/AuthContext.tsx declares it, and
 * Signup.tsx, UserProfileForm.tsx and ProfilePage.tsx declare their own copies with
 * the same thirteen fields. This module also holds what those three forms do alike:
 * - replace one field on change;
 * - run the ten profile field checks;
 * - convert pounds and inches to kilograms and centimetres before a profile is stored.
 *
 * A unit field the source leaves `undefined` is the empty string here. Every use
 * (`=== 'lbs'`, `=== 'inches'`, `|| 'kg'`) treats the two alike.
 */
module UserProfiles {
  import opened Wrappers
  import opened JsNumerics

  datatype UserProfile = UserProfile(
    username: string,
    age: string,
    weight: string,
    height: string,
    gender: string,
    fitnessLevel: string,
    workoutFrequency: string,
    workoutDuration: string,
    fitnessGoal: string,
    targetWeight: string,
    heightUnit: string,
    weightUnit: string,
    targetWeightUnit: string)

  /** The `name` of a form control, one per profile field. */
  datatype Field =
    | Username | Age | Weight | Height | Gender | FitnessLevel | WorkoutFrequency
    | WorkoutDuration | FitnessGoal | TargetWeight | HeightUnit | WeightUnit | TargetWeightUnit

  function Get(p: UserProfile, f: Field): string
  {
    match f
    case Username => p.username
    case Age => p.age
    case Weight => p.weight
    case Height => p.height
    case Gender => p.gender
    case FitnessLevel => p.fitnessLevel
    case WorkoutFrequency => p.workoutFrequency
    case WorkoutDuration => p.workoutDuration
    case FitnessGoal => p.fitnessGoal
    case TargetWeight => p.targetWeight
    case HeightUnit => p.heightUnit
    case WeightUnit => p.weightUnit
    case TargetWeightUnit => p.targetWeightUnit
  }

  /** `{ ...p, [name]: value }` */
  function With(p: UserProfile, f: Field, value: string): (q: UserProfile)
    ensures Get(q, f) == value
    ensures forall g :: g != f ==> Get(q, g) == Get(p, g)
  {
    match f
    case Username => p.(username := value)
    case Age => p.(age := value)
    case Weight => p.(weight := value)
    case Height => p.(height := value)
    case Gender => p.(gender := value)
    case FitnessLevel => p.(fitnessLevel := value)
    case WorkoutFrequency => p.(workoutFrequency := value)
    case WorkoutDuration => p.(workoutDuration := value)
    case FitnessGoal => p.(fitnessGoal := value)
    case TargetWeight => p.(targetWeight := value)
    case HeightUnit => p.(heightUnit := value)
    case WeightUnit => p.(weightUnit := value)
    case TargetWeightUnit => p.(targetWeightUnit := value)
  }

  /** A profile is its thirteen fields: two profiles that agree on every field are equal. */
  lemma FieldsDetermine(p: UserProfile, q: UserProfile)
    requires forall f :: Get(p, f) == Get(q, f)
    ensures p == q
  {
    assert Get(p, Username) == Get(q, Username) && Get(p, Age) == Get(q, Age);
    assert Get(p, Weight) == Get(q, Weight) && Get(p, Height) == Get(q, Height);
    assert Get(p, Gender) == Get(q, Gender) && Get(p, FitnessLevel) == Get(q, FitnessLevel);
    assert Get(p, WorkoutFrequency) == Get(q, WorkoutFrequency);
    assert Get(p, WorkoutDuration) == Get(q, WorkoutDuration);
    assert Get(p, FitnessGoal) == Get(q, FitnessGoal) && Get(p, TargetWeight) == Get(q, TargetWeight);
    assert Get(p, HeightUnit) == Get(q, HeightUnit) && Get(p, WeightUnit) == Get(q, WeightUnit);
    assert Get(p, TargetWeightUnit) == Get(q, TargetWeightUnit);
  }

  /** Setting a field to the value it already has changes nothing. */
  lemma WithSame(p: UserProfile, f: Field)
    ensures With(p, f, Get(p, f)) == p
  {
    FieldsDetermine(With(p, f, Get(p, f)), p);
  }

  /** Two changes of one field: the later one wins. */
  lemma WithTwice(p: UserProfile, f: Field, v: string, w: string)
    ensures With(With(p, f, v), f, w) == With(p, f, w)
  {
    FieldsDetermine(With(With(p, f, v), f, w), With(p, f, w));
  }

  /** Changes of two different fields commute. */
  lemma WithCommutes(p: UserProfile, f: Field, v: string, g: Field, w: string)
    requires f != g
    ensures With(With(p, f, v), g, w) == With(With(p, g, w), f, v)
  {
    FieldsDetermine(With(With(p, f, v), g, w), With(With(p, g, w), f, v));
  }

  /** The blank profile the forms start from: every field empty, units cm, kg and kg. */
  const EmptyProfile: UserProfile := UserProfile("", "", "", "", "", "", "", "", "", "", "cm", "kg", "kg")

  predicate IsUnit(f: Field)
  {
    f == HeightUnit || f == WeightUnit || f == TargetWeightUnit
  }

  lemma EmptyProfileFields(f: Field)
    ensures Get(EmptyProfile, f) == (if f == HeightUnit then "cm" else if IsUnit(f) then "kg" else "")
  {
  }

  /** The four fields that must hold a number. */
  predicate IsNumericField(f: Field)
  {
    f == Age || f == Weight || f == Height || f == TargetWeight
  }

  /**
   * Whether `validateForm` rejects field `f`: a numeric field when it is empty or
   * `isNaN(Number(value))`, any other of the ten checked fields when it is empty;
   * the unit fields are never checked.
   */
  predicate FieldFails(num: Numerics, p: UserProfile, f: Field)
  {
    if IsUnit(f) then false
    else if IsNumericField(f) then Get(p, f) == "" || !num.isNumeric(Get(p, f))
    else Get(p, f) == ""
  }

  /** The message stored for a rejected field. */
  function FieldMessage(f: Field): string
  {
    match f
    case Username => "Username is required"
    case Age => "Please enter a valid age"
    case Weight => "Please enter a valid weight"
    case Height => "Please enter a valid height"
    case Gender => "Please select your gender"
    case FitnessLevel => "Please select your fitness level"
    case WorkoutFrequency => "Please select workout frequency"
    case WorkoutDuration => "Please select workout duration"
    case FitnessGoal => "Please select your fitness goal"
    case TargetWeight => "Please enter a valid target weight"
    case HeightUnit => ""
    case WeightUnit => ""
    case TargetWeightUnit => ""
  }

  /** The error record the profile checks produce: one message per rejected field. */
  function ProfileErrors(num: Numerics, p: UserProfile): (errors: map<Field, string>)
    ensures forall f :: f in errors <==> FieldFails(num, p, f)
    ensures forall f :: f in errors ==> errors[f] == FieldMessage(f)
  {
    map f: Field | FieldFails(num, p, f) :: FieldMessage(f)
  }

  /** The ten checked fields, in the order `validateForm` checks them. */
  const CheckOrder: seq<Field> :=
    [Username, Age, Weight, Height, Gender, FitnessLevel, WorkoutFrequency, WorkoutDuration, FitnessGoal, TargetWeight]

  /** The error record after the checks of `fields`, run one after another from an empty record. */
  function ErrorsAfter(num: Numerics, p: UserProfile, fields: seq<Field>): map<Field, string>
    decreases |fields|
  {
    if fields == [] then map[]
    else
      var f := fields[|fields| - 1];
      var before := ErrorsAfter(num, p, fields[..|fields| - 1]);
      if FieldFails(num, p, f) then before[f := FieldMessage(f)] else before
  }

  /** After some checks, the record holds the message of each checked field that failed, and nothing else. */
  lemma {:induction false} ErrorsAfterContents(num: Numerics, p: UserProfile, fields: seq<Field>)
    ensures forall f :: f in ErrorsAfter(num, p, fields) <==> f in fields && FieldFails(num, p, f)
    ensures forall f :: f in ErrorsAfter(num, p, fields) ==> ErrorsAfter(num, p, fields)[f] == FieldMessage(f)
    decreases |fields|
  {
    if fields != [] {
      var n := |fields| - 1;
      ErrorsAfterContents(num, p, fields[..n]);
      assert fields == fields[..n] + [fields[n]];
    }
  }

  /** Running all ten checks yields exactly the record `ProfileErrors`. */
  lemma ErrorsAfterAll(num: Numerics, p: UserProfile)
    ensures ErrorsAfter(num, p, CheckOrder) == ProfileErrors(num, p)
  {
    ErrorsAfterContents(num, p, CheckOrder);
    forall f | !IsUnit(f)
      ensures f in CheckOrder
    {
      match f
      case Username => assert CheckOrder[0] == f;
      case Age => assert CheckOrder[1] == f;
      case Weight => assert CheckOrder[2] == f;
      case Height => assert CheckOrder[3] == f;
      case Gender => assert CheckOrder[4] == f;
      case FitnessLevel => assert CheckOrder[5] == f;
      case WorkoutFrequency => assert CheckOrder[6] == f;
      case WorkoutDuration => assert CheckOrder[7] == f;
      case FitnessGoal => assert CheckOrder[8] == f;
      case TargetWeight => assert CheckOrder[9] == f;
    }
  }

  /**
   * The `k`-th check of `validateForm`: when its field fails, the field's message is
   * added to `newErrors` and `isValid` is cleared.
   */
  method CheckField(num: Numerics, p: UserProfile, k: nat, errors: map<Field, string>, valid: bool)
    returns (newErrors: map<Field, string>, isValid: bool)
    requires k < |CheckOrder| && errors == ErrorsAfter(num, p, CheckOrder[..k])
    requires valid <==> errors == map[]
    ensures newErrors == ErrorsAfter(num, p, CheckOrder[..k + 1])
    ensures isValid <==> newErrors == map[]
  {
    var f := CheckOrder[k];
    newErrors, isValid := errors, valid;
    if FieldFails(num, p, f) {
      newErrors := newErrors[f := FieldMessage(f)];
      isValid := false;
      assert f in newErrors;
    }
    assert CheckOrder[..k + 1][..k] == CheckOrder[..k];
  }

  /** The ten checks of `validateForm`, in source order. */
  method CheckProfile(num: Numerics, p: UserProfile) returns (newErrors: map<Field, string>, isValid: bool)
    ensures newErrors == ProfileErrors(num, p)
    ensures isValid <==> newErrors == map[]
  {
    newErrors := map[];
    isValid := true;
    assert CheckOrder[..0] == [];
    newErrors, isValid := CheckField(num, p, 0, newErrors, isValid);
    newErrors, isValid := CheckField(num, p, 1, newErrors, isValid);
    newErrors, isValid := CheckField(num, p, 2, newErrors, isValid);
    newErrors, isValid := CheckField(num, p, 3, newErrors, isValid);
    newErrors, isValid := CheckField(num, p, 4, newErrors, isValid);
    newErrors, isValid := CheckField(num, p, 5, newErrors, isValid);
    newErrors, isValid := CheckField(num, p, 6, newErrors, isValid);
    newErrors, isValid := CheckField(num, p, 7, newErrors, isValid);
    newErrors, isValid := CheckField(num, p, 8, newErrors, isValid);
    newErrors, isValid := CheckField(num, p, 9, newErrors, isValid);
    assert CheckOrder[..10] == CheckOrder;
    ErrorsAfterAll(num, p);
  }

  /** A profile passes the checks exactly when its ten checked fields are filled in and its four numeric ones are numbers. */
  lemma ProfileValidIff(num: Numerics, p: UserProfile)
    ensures ProfileErrors(num, p) == map[] <==>
      (forall f :: !IsUnit(f) ==> Get(p, f) != "") &&
      (forall f :: IsNumericField(f) ==> num.isNumeric(Get(p, f)))
  {
    if ProfileErrors(num, p) == map[] {
      forall f | !IsUnit(f)
        ensures Get(p, f) != ""
      {
        assert f !in ProfileErrors(num, p);
      }
      forall f | IsNumericField(f)
        ensures num.isNumeric(Get(p, f))
      {
        assert f !in ProfileErrors(num, p);
      }
    }
  }

  /** `weight` in kilograms: converted only when its own unit is 'lbs'. */
  function InKg(num: Numerics, value: string, unit: string): string
  {
    if unit == "lbs" then ScaledFixed2(num, value, KgPerLb) else value
  }

  /** `height` in centimetres: converted only when its own unit is 'inches'. */
  function InCm(num: Numerics, value: string, unit: string): string
  {
    if unit == "inches" then ScaledFixed2(num, value, CmPerInch) else value
  }

  /**
   * The profile with `convertToStandardUnits` applied. Each of the three measurements
   * is converted by its own unit only. The units themselves are kept, so a
   * converted field still names 'lbs' or 'inches'.
   */
  function InStandardUnits(num: Numerics, p: UserProfile): (q: UserProfile)
    ensures q.weight == (if p.weightUnit == "lbs" then ScaledFixed2(num, p.weight, KgPerLb) else p.weight)
    ensures q.height == (if p.heightUnit == "inches" then ScaledFixed2(num, p.height, CmPerInch) else p.height)
    ensures q.targetWeight ==
      (if p.targetWeightUnit == "lbs" then ScaledFixed2(num, p.targetWeight, KgPerLb) else p.targetWeight)
    ensures forall f :: f != Weight && f != Height && f != TargetWeight ==> Get(q, f) == Get(p, f)
  {
    p.(weight := InKg(num, p.weight, p.weightUnit),
       height := InCm(num, p.height, p.heightUnit),
       targetWeight := InKg(num, p.targetWeight, p.targetWeightUnit))
  }

  /**
   * `convertToStandardUnits`: each measurement starts as entered and is replaced by
   * its converted value only when its own unit asks for it.
   */
  method ConvertToStandardUnits(num: Numerics, p: UserProfile)
    returns (standardWeight: string, standardHeight: string, standardTargetWeight: string)
    ensures standardWeight == InStandardUnits(num, p).weight
    ensures standardHeight == InStandardUnits(num, p).height
    ensures standardTargetWeight == InStandardUnits(num, p).targetWeight
  {
    standardWeight := p.weight;
    standardHeight := p.height;
    standardTargetWeight := p.targetWeight;
    if p.weightUnit == "lbs" {
      standardWeight := ScaledFixed2(num, p.weight, KgPerLb);
    }
    if p.heightUnit == "inches" {
      standardHeight := ScaledFixed2(num, p.height, CmPerInch);
    }
    if p.targetWeightUnit == "lbs" {
      standardTargetWeight := ScaledFixed2(num, p.targetWeight, KgPerLb);
    }
  }

  /** A profile already in centimetres and kilograms (or in no unit at all) is stored as it is. */
  lemma MetricUnchanged(num: Numerics, p: UserProfile)
    requires p.weightUnit != "lbs" && p.heightUnit != "inches" && p.targetWeightUnit != "lbs"
    ensures InStandardUnits(num, p) == p
  {
  }

  /** The conversion never touches what the checks look at apart from the measurements themselves. */
  lemma ConversionKeepsChecks(num: Numerics, p: UserProfile, f: Field)
    requires !IsNumericField(f) || f == Age
    ensures FieldFails(num, InStandardUnits(num, p), f) == FieldFails(num, p, f)
  {
  }
}
