# Fit_Labs core, modelled in Dafny

Fit_Labs is a client-side fitness app. This project models the parts of it that
hold logic, and proves properties of them:

- **Catalogues.** Two constant catalogues: exercises by injury and exercises by fitness goal.
- **Weekly plans.** The weekly workout plans, and the lookup that finds the plan of
  the user's goal and today's day in it.
- **Forms.** The four validating forms: sign-up, login, the post-sign-up profile form
  and the profile page editor.
- **State machines.** The authentication context, the navigation state of the app
  shell, the sign-up screen flags and the injury form.
- **Body mass index.** Its computation and its four categories.

The Dafny modules follow the source files one to one. A few shared modules hold
what several files do alike:

- `UserProfiles`: the profile record, the ten profile checks and the unit conversion.
- `FormChecks`: the e-mail pattern and the password rule.
- `GoalLabel`: the goal label formatting.
- `JsNumerics`: the JavaScript number operations.
- `Numerals` and `Tables`: id numbering and table-to-map helpers.

React state cells are the fields of Dafny classes. Handlers are methods with
`modifies` clauses. Effects are methods that take the changed dependency as a
parameter. What a component renders is a function of its fields. Other inputs
become parameters:

- `new Date().getDay()` is an index below 7.
- The presence of an optional callback is a boolean.
- JavaScript `Number`/`isNaN`, `parseFloat` and `toFixed` are a `Numerics` value
  supplied by the caller. Every result stated about them holds whatever they compute.

Where the code and its own comments differ, the model follows the code:

- **Unit names are kept.** The conversion helpers say they "convert units to standard
  format (cm and kg) for storage and calculations" (src/components/Auth/Signup.tsx:159,
  src/components/Auth/UserProfileForm.tsx:120, src/components/ProfilePage/ProfilePage.tsx:192).
  The code converts the numbers but keeps the unit names. A stored height can
  therefore say "inches" and hold centimetres. Two effects follow:
  - `ProfilePage.SavedInchesMisread` and `ProfilePage.SavedInchesBmiShrinks` state
    what this does to the index.
  - `ProfilePage.ProfilePageView.SaveAndRefresh` and `ProfilePage.SecondSaveConvertsAgain`
    show that each further save on the profile page converts the stored figures again.
- **Goal keys differ.** The profile form's goal menu uses keys written with
  underscores. They match neither goal catalogue (`UserProfileForm.GoalOptionsUnknown`).

## Model

| member | source | states |
|---|---|---|
| ExerciseService.GetExercisesForInjury | src/services/exerciseService.ts:303-305 | a injury key gives its stored list in stored order; any other string gives `[]`; the result is non-empty exactly for the 16 names |
| ExerciseService.InjuryKeys | src/services/exerciseService.ts:9-301 | the table's keys are exactly the 16 injury names |
| ExerciseService.InjuryCount | src/services/exerciseService.ts:9-301 | 16 distinct names and 16 keys |
| ExerciseService.InjuryListSizes | src/services/exerciseService.ts:9-301 | every injury has 2 or 3 exercises |
| ExerciseService.InjuryNamesValue | src/services/exerciseService.ts:9-301 | the literal lists Neck Pain first and Hip Pain last, the other fourteen injuries between them |
| ExerciseService.InjuryNamesByIdValue | src/services/exerciseService.ts:9-301 | sorted by their ids, the injuries run from Shoulder Pain to Carpal Tunnel, with Hip Pain sixth and Neck Pain seventh |
| ExerciseService.InjuryTableByIdRecord | src/services/exerciseService.ts:9-301 | the entries sorted by id spell out the same record as the literal |
| ExerciseService.InjuryIdsConsecutive | src/services/exerciseService.ts:9-301 | sorted by id, the entries number the exercises 1, 2, … with no gap, 37 in all; the literal's own order does not |
| ExerciseService.InjuryIdsDistinct | src/services/exerciseService.ts:9-301 | two exercises of the catalogue with the same id are the same injury and the same position in its list |
| ExerciseService.InjuryIdsOneTo37 | src/services/exerciseService.ts:9-301 | the set of ids is exactly "1" … "37" |
| ExerciseTypes.RecordIdsDistinct | src/services/exerciseService.ts:9-301 | any table whose ids run consecutively has no id twice |
| Tables.Permuted | src/services/exerciseService.ts:9-301 | a listing of the same entries in another order: entry k is the entry at position `order[k]` |
| Tables.RecordPermuted | src/services/exerciseService.ts:9-301 | listing the entries of an object literal in another order gives the same record |
| ExerciseTypes.RecordIdsCover | src/services/exerciseService.ts:9-301 | any table whose ids run consecutively has exactly the ids of its number range |
| ExerciseTypes.Difficulty.Name | src/types/index.ts:5 | every difficulty is written Beginner, Intermediate or Advanced |
| GoalExerciseService.GetExercisesForGoal | src/services/goalExerciseService.ts:191-193 | a goal key gives its stored list; an unknown goal gives `[]`; the result is non-empty exactly for the five goal names |
| GoalExerciseService.GoalNamesValue | src/services/goalExerciseService.ts:3-189 | the goal keys are weight-loss, weight-gain, muscle-gain, maintenance and general-fitness, in that order |
| GoalExerciseService.GoalKeys | src/services/goalExerciseService.ts:3-189 | the table's keys are exactly the goal names |
| GoalExerciseService.GoalCount | src/services/goalExerciseService.ts:3-189 | five distinct goals |
| GoalExerciseService.GoalListSizes | src/services/goalExerciseService.ts:3-189 | each goal lists exactly five exercises |
| GoalExerciseService.GoalIdsPrefixed | src/services/goalExerciseService.ts:4-188 | the i-th exercise of a goal has id prefix wl-/wg-/mg-/mt-/gf- followed by i + 1 |
| GoalExerciseService.GoalPrefixInjective | src/services/goalExerciseService.ts:4-188 | different goals have different id prefixes |
| GoalExerciseService.GoalIdsDistinct | src/services/goalExerciseService.ts:4-188 | no id occurs twice in the goal table |
| WorkoutPlans.PlansWeekly | src/components/ExerciseList/TodayExercise.tsx:43-633 | each of the five plans lists seven days, Monday through Sunday in that order, none empty, numbered consecutively behind its goal's prefix |
| WorkoutPlans.PlanGoals | src/components/ExerciseList/TodayExercise.tsx:43-633 | the plans are for weight-loss, muscle-gain, weight-gain, maintenance and general-fitness, in that order |
| WorkoutPlans.WeeklyByTable | src/components/ExerciseList/TodayExercise.tsx:43-633 | a plan whose days and ids match a numbered table is a weekly plan |
| TodayExercise.FirstPlan | src/components/ExerciseList/TodayExercise.tsx:645 | the position `find` stops at: the first plan of the goal, every earlier one of another goal |
| TodayExercise.FindPlan | src/components/ExerciseList/TodayExercise.tsx:645 | `None` exactly when no plan has the goal; otherwise the first plan that has it |
| TodayExercise.FirstDay | src/components/ExerciseList/TodayExercise.tsx:655 | the position `find` stops at: the first day of the name |
| TodayExercise.FindDay | src/components/ExerciseList/TodayExercise.tsx:655 | `None` exactly when no day has the name; otherwise the first day that has it |
| TodayExercise.PlanGoalsAreGoalKeys | src/components/ExerciseList/TodayExercise.tsx:43-633 | a goal has a plan exactly when it is a key of the goal catalogue |
| TodayExercise.DayPosition | src/components/ExerciseList/TodayExercise.tsx:651-652 | in a Monday-first week, `getDay()` index d names the day at position (d + 6) mod 7 |
| TodayExercise.TodayFound | src/components/ExerciseList/TodayExercise.tsx:651-658 | for every catalogue goal and every weekday index the plan and today's day are found, and that day has exercises |
| TodayExercise.PlanIdAt | src/components/ExerciseList/TodayExercise.tsx:43-633 | an exercise's id is its plan's prefix and its running number in the week |
| TodayExercise.PlanPrefixesDistinct | src/components/ExerciseList/TodayExercise.tsx:43-633 | two plans with the same id prefix are the same plan |
| TodayExercise.WeeklyIdsMatch | src/components/ExerciseList/TodayExercise.tsx:43-633 | a shared id means a shared prefix, and within one plan the same position |
| TodayExercise.PlanIdsDistinct | src/components/ExerciseList/TodayExercise.tsx:43-633 | no id occurs twice across all plans, days and positions |
| TodayExercise.TodayExerciseView.constructor | src/components/ExerciseList/TodayExercise.tsx:637-638 | both cells start empty |
| TodayExercise.TodayExerciseView.OnGoalChange | src/components/ExerciseList/TodayExercise.tsx:640-667 | no goal clears both cells; a goal without a plan changes nothing; a goal with a plan stores its days, and today's day when found |
| TodayExercise.KnownGoalShowsToday | src/components/ExerciseList/TodayExercise.tsx:642-658 | a catalogue goal always finds its plan and today's day, so the effect never keeps an old day |
| TodayExercise.DifficultyColor | src/components/ExerciseList/TodayExercise.tsx:669-680 | Beginner is green, Intermediate orange, Advanced red, and exactly everything else gray |
| GoalLabel.Split | src/components/ExerciseList/TodayExercise.tsx:706 | `split('-')` always gives at least one piece |
| GoalLabel.SplitPieces | src/components/ExerciseList/TodayExercise.tsx:706 | no piece holds a dash |
| GoalLabel.SplitJoin | src/components/ExerciseList/TodayExercise.tsx:706 | joining the pieces with dashes gives back the goal |
| GoalLabel.Capitalize | src/components/ExerciseList/TodayExercise.tsx:706 | a capitalised word keeps its length and every character but the first, which is upper-cased |
| GoalLabel.JoinPrefix | src/components/ExerciseList/TodayExercise.tsx:706 | the joined text starts with the first piece, followed by the separator when there is a second piece; `GoalLabel.SplitJoin` shows joining inverts the split |
| GoalLabel.Label | src/components/ExerciseList/TodayExercise.tsx:706 | split, capitalise and join equals the character-by-character relabelling, so the label has the goal's length |
| GoalLabel.LabelAt | src/components/ExerciseList/TodayExercise.tsx:706 | the label has the goal's length; dashes become spaces; word starts are upper-cased; all else stays |
| GoalLabel.WeightLossLabel | src/components/ExerciseList/TodayExercise.tsx:706 | weight-loss is shown as "Weight Loss" |
| GoalLabel.WeightGainLabel | src/components/ExerciseList/TodayExercise.tsx:706 | weight-gain is shown as "Weight Gain" |
| GoalLabel.MuscleGainLabel | src/components/ExerciseList/TodayExercise.tsx:706 | muscle-gain is shown as "Muscle Gain" |
| GoalLabel.MaintenanceLabel | src/components/ExerciseList/TodayExercise.tsx:706 | maintenance is shown as "Maintenance" |
| GoalLabel.GeneralFitnessLabel | src/components/ExerciseList/TodayExercise.tsx:706 | general-fitness is shown as "General Fitness" |
| ExerciseList.GoalExercises | src/components/ExerciseList/ExerciseList.tsx:54 | `[]` without a goal, otherwise the goal catalogue's list for it |
| ExerciseList.GoalExercisesFilled | src/components/ExerciseList/ExerciseList.tsx:54 | the goal list is non-empty exactly when the user's goal is a catalogue key |
| ExerciseList.ChooseView | src/components/ExerciseList/ExerciseList.tsx:56-62 | the stand-alone "No exercises found" view is chosen exactly when both lists are empty |
| ExerciseList.ChooseGoalTab | src/components/ExerciseList/ExerciseList.tsx:152-182 | grid when there are goal exercises; otherwise "check back later" exactly when a goal is set, "complete your profile" exactly when none is |
| ExerciseList.GoalTabForUser | src/components/ExerciseList/ExerciseList.tsx:152-182 | grid exactly for catalogue goals, "check back later" exactly for other non-empty goals, "complete your profile" exactly without a goal |
| ExerciseList.BadgeColor | src/components/ExerciseList/ExerciseList.tsx:39-50 | the badge colour agrees with the plan view's difficulty colours for every exercise |
| FormChecks.TestEmail | src/components/Auth/Signup.tsx:76 | the executable `test`: some `@` with a non-blank before it, then at least one non-blank, then a `.` with a non-blank after it; `FormChecks.TestEmailCorrect` proves it equals the pattern |
| FormChecks.TestEmailCorrect | src/components/Auth/Signup.tsx:76 | the executable test agrees with the unanchored pattern `\S+@\S+\.\S+` on every string |
| FormChecks.Utf16Length | src/components/Auth/Signup.tsx:84 | `length` counts UTF-16 code units: never fewer than the characters, and one or two per character |
| FormChecks.EmailError | src/components/Auth/Signup.tsx:73-79 | an e-mail error message is never empty |
| FormChecks.EmailErrorCases | src/components/Auth/Signup.tsx:73-79 | empty is "Email is required"; otherwise "Invalid email format" exactly when no substring matches the pattern; no error exactly when one does |
| FormChecks.PasswordError | src/components/Auth/Signup.tsx:81-87 | a password error message is never empty |
| FormChecks.PasswordErrorCases | src/components/Auth/Signup.tsx:81-87 | empty is "Password is required"; a non-empty password under 6 code units gets the length message; 6 or more gets no error |
| UserProfiles.With | src/components/Auth/UserProfileForm.tsx:187-193 | the named field takes the value and every other field keeps its own |
| UserProfiles.FieldsDetermine | src/context/AuthContext.tsx:9-23 | two profiles that agree on all thirteen fields are equal |
| UserProfiles.WithSame | src/components/Auth/UserProfileForm.tsx:187-193 | writing a field's own value changes nothing |
| UserProfiles.WithTwice | src/components/Auth/UserProfileForm.tsx:187-193 | a second write to a field replaces the first |
| UserProfiles.WithCommutes | src/components/Auth/UserProfileForm.tsx:187-193 | writes to different fields commute |
| UserProfiles.EmptyProfileFields | src/components/Auth/UserProfileForm.tsx:41-55 | the initial profile is empty apart from the units cm, kg and kg |
| UserProfiles.FieldFails | src/components/Auth/UserProfileForm.tsx:66-114 | a field's own check fails: it is empty, or for age, weight, height and target weight, not a number; `UserProfiles.ProfileValidIff` states the combined condition |
| UserProfiles.ProfileErrors | src/components/Auth/UserProfileForm.tsx:62-118 | a field has a message exactly when its check fails, and it is that field's message |
| UserProfiles.ErrorsAfter | src/components/Auth/UserProfileForm.tsx:62-118 | the error record after running the checks of a list of fields in order; `UserProfiles.ErrorsAfterContents` and `UserProfiles.ErrorsAfterAll` state what it holds |
| UserProfiles.ErrorsAfterContents | src/components/Auth/UserProfileForm.tsx:62-118 | after the checks of a list of fields, exactly the failed fields of the list have messages |
| UserProfiles.ErrorsAfterAll | src/components/Auth/UserProfileForm.tsx:62-118 | running all ten checks in source order gives the error record |
| UserProfiles.CheckField | src/components/Auth/UserProfileForm.tsx:66-114 | one check step extends the record to one more field, and the flag stays "record is empty" |
| UserProfiles.CheckProfile | src/components/Auth/UserProfileForm.tsx:62-118 | the ten checks build the error record, and the flag is true exactly when it is empty |
| UserProfiles.ProfileValidIff | src/components/Auth/UserProfileForm.tsx:66-114 | valid exactly when the five choice fields are non-empty, and the four numeric fields are non-empty and numeric |
| UserProfiles.InKg | src/components/Auth/UserProfileForm.tsx:127-129 | a pound figure becomes its two-decimal kilogram text and any other unit is kept; `UserProfiles.MetricUnchanged` covers the kilogram case |
| UserProfiles.InCm | src/components/Auth/UserProfileForm.tsx:132-134 | an inch figure becomes its two-decimal centimetre text and any other unit is kept |
| UserProfiles.InStandardUnits | src/components/Auth/UserProfileForm.tsx:121-162 | weight, height and target weight are converted, each only by its own unit; every other field, the units included, is copied |
| UserProfiles.ConvertToStandardUnits | src/components/Auth/UserProfileForm.tsx:121-146 | the three values it returns are the converted profile's measurements |
| UserProfiles.MetricUnchanged | src/components/Auth/UserProfileForm.tsx:121-146 | a profile in kilograms and centimetres is stored as entered |
| UserProfiles.ConversionKeepsChecks | src/components/Auth/UserProfileForm.tsx:121-162 | conversion changes no check outcome except those of the converted measurements |
| AuthContext.ProfileGoal | src/context/AuthContext.tsx:3-7 | `user?.profile?.fitnessGoal`: empty without a user or profile, the profile's goal otherwise |
| AuthContext.UpdatedUser | src/context/AuthContext.tsx:67-78 | without a user nothing changes; with one only the profile is replaced, email and id kept |
| AuthContext.UpdateKeepsAuthentication | src/context/AuthContext.tsx:67-78 | an update never signs anyone in or out |
| AuthContext.UpdateTwice | src/context/AuthContext.tsx:67-78 | two updates leave only the second; afterwards the goal is the new profile's |
| AuthContext.AuthProvider.constructor | src/context/AuthContext.tsx:49 | no user at the start |
| AuthContext.AuthProvider.Login | src/context/AuthContext.tsx:51-55 | the user becomes {email, id "1"} with no profile; the password is kept nowhere |
| AuthContext.AuthProvider.Signup | src/context/AuthContext.tsx:57-61 | the user becomes {email, id "1", profile}; the password is kept nowhere |
| AuthContext.AuthProvider.Logout | src/context/AuthContext.tsx:63-65 | no user afterwards |
| AuthContext.AuthProvider.UpdateUserProfile | src/context/AuthContext.tsx:67-78 | the user becomes `UpdatedUser` of the old one |
| AuthContext.AuthProvider.IsAuthenticated | src/context/AuthContext.tsx:86 | true exactly when there is a user |
| Signup.FormWith | src/components/Auth/Signup.tsx:150-156 | the named control takes the value and no other changes |
| Signup.ConfirmError | src/components/Auth/Signup.tsx:89-95 | a confirmation message is never empty |
| Signup.ConfirmErrorCases | src/components/Auth/Signup.tsx:89-95 | empty is "Please confirm your password"; otherwise "Passwords do not match" exactly when it differs; no error exactly when it is non-empty and equal |
| Signup.Lifted | src/components/Auth/Signup.tsx:97-145 | the profile messages move to the sign-up form's profile-field names and nothing else is added |
| Signup.Assemble | src/components/Auth/Signup.tsx:69-149 | the record built from the three account checks' outcomes and the profile record; `Signup.AssembleAt` and `Signup.AssembleEmpty` state its entries |
| Signup.AssembleAt | src/components/Auth/Signup.tsx:69-149 | each control is in the record exactly when its own check failed, with that check's message |
| Signup.AssembleEmpty | src/components/Auth/Signup.tsx:69-149 | the record is empty exactly when every check passed |
| Signup.SignupErrors | src/components/Auth/Signup.tsx:69-149 | the error record of the sign-up form; `Signup.SignupErrorsAt` and `Signup.SignupValidIff` state what it holds |
| Signup.SignupErrorsAt | src/components/Auth/Signup.tsx:69-149 | each of the thirteen controls carries a message exactly when its check fails |
| Signup.SignupErrorsEmpty | src/components/Auth/Signup.tsx:69-149 | the record is empty exactly when no control's check fails |
| Signup.SignupValidIff | src/components/Auth/Signup.tsx:69-149 | valid exactly when the e-mail matches, the password has 6 code units, the confirmation equals it and the profile passes |
| Signup.LiftedEmpty | src/components/Auth/Signup.tsx:97-145 | the lifted profile record is empty exactly when the profile record is |
| Signup.CheckEmail | src/components/Auth/Signup.tsx:73-79 | the e-mail step adds the e-mail entry and clears the flag exactly when it fails |
| Signup.CheckPassword | src/components/Auth/Signup.tsx:81-87 | the password step adds the password entry and clears the flag exactly when it fails |
| Signup.CheckConfirm | src/components/Auth/Signup.tsx:89-95 | the confirmation step adds its entry and clears the flag exactly when it fails |
| Signup.SignupView.constructor | src/components/Auth/Signup.tsx:44-63 | the initial form and no errors |
| Signup.SignupView.ValidateForm | src/components/Auth/Signup.tsx:69-149 | stores the thirteen-check record and returns true exactly when it is empty; the form is untouched |
| Signup.SignupView.HandleChange | src/components/Auth/Signup.tsx:150-156 | only the named control changes |
| Signup.SignupProfile | src/components/Auth/Signup.tsx:194-209 | the profile handed to `signup` is the form's profile converted by `InStandardUnits`: no e-mail or password, and units copied |
| Signup.SignupView.HandleSubmit | src/components/Auth/Signup.tsx:187-213 | signs up exactly when the form is valid, with the e-mail and the converted profile; otherwise the auth state is untouched |
| Signup.GoalOptionsAreKeys | src/components/Auth/Signup.tsx:474-478 | the goal menu's values are the goal catalogue's keys, in order |
| Signup.GoalOptionLabel | src/components/Auth/Signup.tsx:474-478 | each menu text is the label computed from its value |
| Login.MessageOf | src/components/Auth/Login.tsx:31-48 | a passing check leaves its message '' and a failing one stores its text |
| Login.LoginForm.constructor | src/components/Auth/Login.tsx:21-25 | empty fields and both messages '' |
| Login.LoginForm.ValidateForm | src/components/Auth/Login.tsx:30-52 | the record always has both keys, reset on every run; returns true exactly when both messages are '' |
| Login.LoginForm.HandleSubmit | src/components/Auth/Login.tsx:54-70 | the callback runs exactly when the form is valid and one was given; no auth state is touched |
| Login.LoginValidIff | src/components/Auth/Login.tsx:30-52 | both messages are '' exactly when the e-mail matches and the password has 6 code units |
| UserProfileForm.GoalOptionsUnknown | src/components/Auth/UserProfileForm.tsx:420-424 | none of the underscore goals is a catalogue key: no exercises and no plan |
| UserProfileForm.ChosenGoalShowsNothing | src/components/Auth/UserProfileForm.tsx:420-424 | a user whose goal came from this menu gets `[]` and the "check back later" message |
| UserProfileForm.ProfileFormView.constructor | src/components/Auth/UserProfileForm.tsx:41-58 | the empty profile and no errors |
| UserProfileForm.ProfileFormView.ValidateForm | src/components/Auth/UserProfileForm.tsx:62-118 | stores the profile error record and returns true exactly when it is empty |
| UserProfileForm.ProfileFormView.HandleChange | src/components/Auth/UserProfileForm.tsx:187-193 | only the named field changes |
| UserProfileForm.ProfileFormView.HandleSubmit | src/components/Auth/UserProfileForm.tsx:148-185 | an invalid form never reaches `updateUserProfile`; a valid one stores the converted profile; `onProfileComplete` runs exactly when valid and given |
| Auth.Render | src/components/Auth/Auth.tsx:72-81 | the profile form has priority, then sign-up, then nothing |
| Auth.RenderNeverEmpty | src/components/Auth/Auth.tsx:72-81 | under `showProfileForm == !showAuth` the empty branch never renders |
| Auth.AuthScreen.constructor | src/components/Auth/Auth.tsx:10-11 | starts at (false, true), inside the invariant |
| Auth.AuthScreen.OnUserChange | src/components/Auth/Auth.tsx:15-24 | an authenticated user without a profile gives (true, false); everything else leaves the flags alone; the invariant holds |
| Auth.AuthScreen.HandleProfileSkip | src/components/Auth/Auth.tsx:26-29 | gives (false, true), inside the invariant |
| Auth.AuthScreen.HandleAuthSuccess | src/components/Auth/Auth.tsx:31-34 | gives (true, false), inside the invariant |
| Auth.AuthScreen.View | src/components/Auth/Auth.tsx:72-81 | in every reachable state the screen shows the profile form or the sign-up form |
| App.RootScreen | src/App.tsx:44-88 | Auth exactly when unauthenticated; the injury form exactly when authenticated, no injury and no goal view; the exercise list otherwise |
| App.AppContent.constructor | src/App.tsx:18-20 | ('', [], false) |
| App.AppContent.HandleInjurySubmit | src/App.tsx:23-28 | the injury, the goal view off, and the injury catalogue's list |
| App.AppContent.HandleGoalSelect | src/App.tsx:30-34 | ('', [], true) |
| App.AppContent.HandleBack | src/App.tsx:36-40 | exactly the initial state |
| App.AppContent.Screen | src/App.tsx:44-88 | the route shown is `RootScreen` of the cells |
| App.InjurySubmitShowsList | src/App.tsx:23-28 | submitting an offered injury shows the list, and the list is not empty |
| App.BackShowsForm | src/App.tsx:30-40 | after back the form shows; after goal select the list shows |
| InjuryForm.InjuryOptionsAreKeys | src/components/InjuryForm/InjuryForm.tsx:66-81 | the menu offers exactly the catalogue's keys, 16 of them, each once |
| InjuryForm.InjuryOptionsDistinct | src/components/InjuryForm/InjuryForm.tsx:66-81 | no injury is offered twice |
| InjuryForm.InjuryOptionsById | src/components/InjuryForm/InjuryForm.tsx:66-81 | the menu lists the injuries in the order of their ids, which is not the order of the catalogue's literal |
| InjuryForm.OfferedInjuriesHaveExercises | src/components/InjuryForm/InjuryForm.tsx:66-81 | an offered injury never hits the `[]` fallback |
| InjuryForm.GoalButtonDisabled | src/components/InjuryForm/InjuryForm.tsx:116 | the goal button is disabled exactly when the user has no goal |
| InjuryForm.InjuryFormView.constructor | src/components/InjuryForm/InjuryForm.tsx:26 | no injury chosen at the start |
| InjuryForm.InjuryFormView.HandleChange | src/components/InjuryForm/InjuryForm.tsx:64 | the selection takes the chosen value |
| InjuryForm.InjuryFormView.HandleSubmit | src/components/InjuryForm/InjuryForm.tsx:29-34 | `onSubmit` gets the injury unchanged, and only when it is non-empty |
| InjuryForm.InjuryFormView.SubmitDisabled | src/components/InjuryForm/InjuryForm.tsx:89 | the submit button is disabled exactly when no injury is chosen |
| ProfilePage.HeightInMetres | src/components/ProfilePage/ProfilePage.tsx:96-100 | the height read as inches times 0.0254 when the unit says inches, as centimetres over 100 otherwise; `ProfilePage.UnitsAgree` states that both readings agree |
| ProfilePage.WeightInKg | src/components/ProfilePage/ProfilePage.tsx:103-107 | the weight read as pounds times 0.453592 when the unit says lbs, as kilograms otherwise |
| ProfilePage.BmiValue | src/components/ProfilePage/ProfilePage.tsx:89-115 | `null` exactly without a profile, with an empty height or weight, or with a reading that is `NaN` or not positive; otherwise a positive index whose product with the height squared is the weight |
| ProfilePage.CalculateBmi | src/components/ProfilePage/ProfilePage.tsx:89-115 | `null` exactly when the index is; otherwise its one-decimal text |
| ProfilePage.GetBmiCategory | src/components/ProfilePage/ProfilePage.tsx:117-122 | below 18.5 Underweight/blue; [18.5, 25) Normal weight/green; [25, 30) Overweight/orange; 30 and up Obese/red |
| ProfilePage.Rank | src/components/ProfilePage/ProfilePage.tsx:117-122 | every index has exactly one of the four categories: they are total and disjoint |
| ProfilePage.CategoryMonotone | src/components/ProfilePage/ProfilePage.tsx:117-122 | a larger index never yields an earlier category |
| ProfilePage.ShownCategory | src/components/ProfilePage/ProfilePage.tsx:271-272 | a category is shown only for a computed index, it is always one of the four, and every non-empty index text gets one |
| ProfilePage.UnitsAgree | src/components/ProfilePage/ProfilePage.tsx:96-107 | the same body entered in inches and pounds or in cm and kg gets the same index |
| ProfilePage.HeightShown | src/components/ProfilePage/ProfilePage.tsx:525-527 | an inch height is shown divided by 2.54 to one decimal, any other as it is with " cm"; `ProfilePage.SavedInchesMisread` states what it shows after a save |
| ProfilePage.SavedInchesMisread | src/components/ProfilePage/ProfilePage.tsx:205-208 | after saving inches, the card shows the entered figure while the index reads a height 2.54 times too large |
| ProfilePage.SavedInchesBmiShrinks | src/components/ProfilePage/ProfilePage.tsx:96-98 | so the index after such a save is the true one divided by 2.54 squared |
| ProfilePage.GoalOptionsAreSignups | src/components/ProfilePage/ProfilePage.tsx:450-454 | the edit form's goal menu is the sign-up form's: the catalogue's keys in order |
| ProfilePage.ProfilePageView.constructor | src/components/ProfilePage/ProfilePage.tsx:48-51 | not editing, no profiles, no errors |
| ProfilePage.ProfilePageView.OnUserChange | src/components/ProfilePage/ProfilePage.tsx:60-87 | a user's profile goes into both copies; a user without one gets the empty profile in both and edit mode opens; without a user nothing changes |
| ProfilePage.ProfilePageView.HandleEditToggle | src/components/ProfilePage/ProfilePage.tsx:124-130 | always flips edit mode; leaving it restores the edited copy from the profile and clears the errors |
| ProfilePage.ProfilePageView.ValidateForm | src/components/ProfilePage/ProfilePage.tsx:132-190 | false with errors untouched when there is no edited copy; otherwise stores its error record and returns true exactly when it is empty |
| ProfilePage.ProfilePageView.HandleSaveProfile | src/components/ProfilePage/ProfilePage.tsx:223-251 | a valid edit is converted, stored on the user and shown, and edit mode closes; otherwise neither the user nor the shown profile nor edit mode changes |
| ProfilePage.ProfilePageView.SaveAndRefresh | src/components/ProfilePage/ProfilePage.tsx:223-251 | `handleSaveProfile` followed by the `[user]` effect (ProfilePage.tsx:60-87) that `updateUserProfile` (AuthContext.tsx:67-78) triggers. The effect runs exactly for a valid edit and a signed-in user, and then the user, the shown profile and the edited copy all hold the converted profile. A valid edit with no user shows the converted profile, leaves the user null and closes edit mode. An invalid edit or a null copy leaves the user, the shown profile and edit mode as they were. The errors are the edited copy's check record, or unchanged when there is no copy |
| ProfilePage.SecondSaveConvertsAgain | src/components/ProfilePage/ProfilePage.tsx:193-220 | converting the converted profile again keeps the unit "inches" and converts the stored figure again, for heights and for pound weights |
| ProfilePage.ProfilePageView.HandleChange | src/components/ProfilePage/ProfilePage.tsx:253-261 | only the named field of the edited copy changes, and only when there is one |
| ProfilePage.ProfilePageView.View | src/components/ProfilePage/ProfilePage.tsx:263-269 | "Loading profile..." exactly while there is no profile |

## Left out

- Exercise descriptions are not modelled. Ids, titles, difficulties and durations are kept.
- The Chatbot (src/components/Chatbot/Chatbot.tsx) is not part of this model. It is a
  wrapper over a foreign client library, with asynchronous requests and a timer.
- Navigation, theme toggle, theme configuration, styling and layout are not modelled.
- React machinery is not modelled:
  - hook scheduling and rendering;
  - toasts;
  - `navigate('/dashboard')` and router routes other than "/";
  - the `useAuth` guard outside a provider.
- `isLoading` flags and the `try`/`catch` around awaited calls are not modelled. The
  modelled context operations never fail, so no error branch is reachable.
- `console.log` calls are not modelled.
- JavaScript number parsing (`Number`, `isNaN`, `parseFloat`) and `toFixed` rounding are
  parameters. Floating point is exact real arithmetic. `NaN` is `None`. `Infinity` is
  not represented.
- Rounding is not modelled:
  - `toFixed` round trips are not proved;
  - `ProfilePage.SavedInchesMisread` and `ProfilePage.SavedInchesBmiShrinks` take as a
    premise that the stored two-decimal text reads back as the converted value.
- `toUpperCase` in goal labels is modelled for ASCII letters only. All goal keys are ASCII.
- Handlers that store by `name` take a `Field`/`SignupField`. A form control with an
  unknown name is not modelled.
- The catalogues are Dafny maps. JavaScript's prototype keys (`toString` and the like)
  are not modelled.
- Login's input handlers only assign one cell each. They are left out.
- An empty `toFixed(1)` text does not occur in JavaScript. `ShownCategory` still models
  the `bmi ?` test, so it does not claim that a category is always shown for a computed index.
- The `[user]` effect of the profile page is a method that the caller runs after the
  user changes. `ProfilePage.ProfilePageView.SaveAndRefresh` runs it after a save. The
  React scheduling that decides when it runs is not modelled.
- `ProfilePage.SavedInchesBmiShrinks`: stated only for a weight entered in kilograms.
- `ProfilePage.ProfilePageView.HandleSaveProfile`: the `if (!standardProfile) return`
  guard cannot fire once the edited copy exists, so it is not modelled.
