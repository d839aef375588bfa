/**
 * The authentication context of src/context/AuthContext.tsx: one `user` cell that
 * `login`, `signup` and `logout` overwrite and `updateUserProfile` changes only
 * when someone is signed in. Nothing is checked against a server; the password is
 * accepted and never kept.
 */
module AuthContext {
  import opened Wrappers
  import opened UserProfiles

  /** `User`: the profile is optional. */
  datatype User = User(email: string, id: string, profile: Option<UserProfile>)

  /** The id every simulated sign-in gives the user. */
  const SimulatedId: string := "1"

  /** `user?.profile?.fitnessGoal`, with the empty string where the chain stops early. */
  function ProfileGoal(user: Option<User>): (goal: string)
    ensures user.None? ==> goal == ""
    ensures user.Some? && user.value.profile.None? ==> goal == ""
    ensures user.Some? && user.value.profile.Some? ==> goal == user.value.profile.value.fitnessGoal
  {
    match user
    case None => ""
    case Some(u) =>
      match u.profile
      case None => ""
      case Some(p) => p.fitnessGoal
  }

  /** Whether `user?.profile?.fitnessGoal` is truthy: there is a goal and it is not empty. */
  predicate HasGoal(user: Option<User>)
  {
    ProfileGoal(user) != ""
  }

  /** The user after `updateUserProfile(profile)`: only a signed-in user's profile is replaced. */
  function UpdatedUser(user: Option<User>, profile: UserProfile): (r: Option<User>)
    ensures user.None? ==> r.None?
    ensures user.Some? ==> r.Some? && r.value.email == user.value.email && r.value.id == user.value.id
    ensures user.Some? ==> r.value.profile == Some(profile)
  {
    match user
    case None => None
    case Some(u) => Some(u.(profile := Some(profile)))
  }

  /** An update never signs anyone in or out. */
  lemma UpdateKeepsAuthentication(user: Option<User>, profile: UserProfile)
    ensures UpdatedUser(user, profile).Some? <==> user.Some?
  {
  }

  /** After an update the user's goal is the new profile's goal, and two updates leave only the second. */
  lemma UpdateTwice(user: Option<User>, p: UserProfile, q: UserProfile)
    ensures UpdatedUser(UpdatedUser(user, p), q) == UpdatedUser(user, q)
    ensures user.Some? ==> ProfileGoal(UpdatedUser(user, q)) == q.fitnessGoal
  {
  }

  /** `AuthProvider`: the `user` state cell and the operations the context offers. */
  class AuthProvider {
    var user: Option<User>

    /** `useState<User | null>(null)` */
    constructor()
      ensures user == None
    {
      user := None;
    }

    /** `login`: any credentials sign in the user with this email, id "1" and no profile. */
    method Login(email: string, password: string)
      modifies this
      ensures user == Some(User(email, SimulatedId, None))
    {
      user := Some(User(email, SimulatedId, None));
    }

    /** `signup`: the user with this email, id "1" and the profile given, if any. */
    method Signup(email: string, password: string, profile: Option<UserProfile>)
      modifies this
      ensures user == Some(User(email, SimulatedId, profile))
    {
      user := Some(User(email, SimulatedId, profile));
    }

    /** `logout` */
    method Logout()
      modifies this
      ensures user == None
    {
      user := None;
    }

    /** `updateUserProfile`: nothing happens without a signed-in user. */
    method UpdateUserProfile(profile: UserProfile)
      modifies this
      ensures user == UpdatedUser(old(user), profile)
      ensures old(user).None? ==> user == old(user)
    {
      if user.Some? {
        user := Some(user.value.(profile := Some(profile)));
      }
    }

    /** `isAuthenticated: !!user` */
    function IsAuthenticated(): (b: bool)
      reads this
      ensures b <==> user.Some?
    {
      user != None
    }
  }
}
