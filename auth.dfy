/**
 * The sign-up screen of src/components/Auth/Auth.tsx: two flags choose between the
 * profile form and the sign-up form.
 */
module Auth {
  import opened Wrappers
  import opened AuthContext

  /** What the screen renders. */
  datatype AuthView =
    | ProfileFormView   // `<UserProfileForm ... />`
    | SignupView        // `<Signup ... />`
    | NothingView       // `null`

  /** The profile form wins over the sign-up form; with neither flag nothing is rendered. */
  function Render(showProfileForm: bool, showAuth: bool): (v: AuthView)
    ensures v == ProfileFormView <==> showProfileForm
    ensures v == SignupView <==> !showProfileForm && showAuth
    ensures v == NothingView <==> !showProfileForm && !showAuth
  {
    if showProfileForm then ProfileFormView else if showAuth then SignupView else NothingView
  }

  /** In a state where exactly one flag is set, something is always rendered. */
  lemma RenderNeverEmpty(showProfileForm: bool, showAuth: bool)
    requires showProfileForm == !showAuth
    ensures Render(showProfileForm, showAuth) != NothingView
    ensures Render(showProfileForm, showAuth) == (if showAuth then SignupView else ProfileFormView)
  {
  }

  /** The `showProfileForm` and `showAuth` state cells. */
  class AuthScreen {
    var showProfileForm: bool
    var showAuth: bool

    /** Exactly one of the two flags is set. */
    predicate Valid()
      reads this
    {
      showProfileForm == !showAuth
    }

    /** `useState(false)`, `useState(true)` */
    constructor()
      ensures Valid()
      ensures !showProfileForm && showAuth
    {
      showProfileForm := false;
      showAuth := true;
    }

    /**
     * The effect: a signed-in user without a profile is sent to the profile form.
     * A signed-in user with a profile is sent on to the dashboard (the navigation
     * is not part of this model) and the flags stay as they are.
     */
    method OnUserChange(user: Option<User>, isAuthenticated: bool)
      requires Valid()
      modifies this
      ensures Valid()
      ensures isAuthenticated && user.Some? && user.value.profile.None? ==> showProfileForm && !showAuth
      ensures !(isAuthenticated && user.Some? && user.value.profile.None?) ==>
        showProfileForm == old(showProfileForm) && showAuth == old(showAuth)
    {
      if isAuthenticated && user.Some? {
        if user.value.profile.None? {
          showProfileForm := true;
          showAuth := false;
        }
      }
    }

    /** `handleProfileSkip`: back to the sign-up form. */
    method HandleProfileSkip()
      modifies this
      ensures Valid()
      ensures !showProfileForm && showAuth
    {
      showProfileForm := false;
      showAuth := true;
    }

    /** `handleAuthSuccess`: on to the profile form. */
    method HandleAuthSuccess()
      modifies this
      ensures Valid()
      ensures showProfileForm && !showAuth
    {
      showProfileForm := true;
      showAuth := false;
    }

    /** What the screen renders now. */
    function View(): (v: AuthView)
      reads this
      requires Valid()
      ensures v != NothingView
      ensures v == Render(showProfileForm, showAuth)
    {
      RenderNeverEmpty(showProfileForm, showAuth);
      Render(showProfileForm, showAuth)
    }
  }
}
