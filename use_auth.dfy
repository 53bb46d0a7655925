/**
 * The `useAuth` hook: the effect that checks the session and loads the
 * signed-in user's profile row, and the sign-out handler.
 *
 * The outcome of one run of the check is a pure branch tree (`Resolve`) over
 * the `getSession` answer and the answer of the profile query; the hook
 * object (`AuthHook`) applies that outcome to its four state cells.
 * Navigation is returned as the path passed to `navigate`.
 */
module UseAuth {
  import opened Common

  /** A row of the `users` table. */
  datatype UserProfile = UserProfile(
    id: string,
    createdAt: string,
    xUsername: Option<string>,
    instagramUsername: Option<string>,
    linkedinUrl: Option<string>,
    faceImageUrl: Option<string>)

  /**
   * What awaiting `from('users').select('*').eq('uid', id).single()` yields:
   * the row, an error object with a code and a message, or a rejection.
   */
  datatype ProfileQuery =
    | Row(profile: UserProfile)
    | QueryError(code: string, message: string)
    | QueryRejected(message: string)

  /** The four ways one run of `checkAuth` can end. */
  datatype Outcome =
    | ErrorState(message: string)
    | GoToLogin
    | GoToOnboarding
    | ProfileLoaded(profile: UserProfile)

  /** PostgREST's code for "`.single()` did not match exactly one row" (none, or several). */
  const NotSingleRowCode := "PGRST116"

  /** True when the profile row may be shown: it has a non-empty face image. */
  predicate IsComplete(p: UserProfile)
  {
    Truthy(p.faceImageUrl)
  }

  /**
   * The uid the profile query is made for, or None when the run stops
   * before that query (rejected `getSession`, a session error, no session).
   */
  function ProfileQueryKey(s: GetSession): (k: Option<string>)
    ensures k.Some? <==> s.Resolved? && s.error.None? && s.session.Some?
    ensures k.Some? ==> k.value == s.session.value.user.id
  {
    match s
    case Rejected(_) => None
    case Resolved(session, error) =>
      if error.Some? || session.None? then None else Some(session.value.user.id)
  }

  /**
   * The outcome of one run of `checkAuth`, given the session answer and the
   * answer the profile query would give (read only when the query is made).
   */
  function Resolve(s: GetSession, q: ProfileQuery): (o: Outcome)
    // a rejected getSession is caught by the outer handler
    ensures s.Rejected? ==> o == ErrorState("Auth error: " + s.message)
    // a returned session error wins over any session data
    ensures s.Resolved? && s.error.Some? ==> o == ErrorState("Session error: " + s.error.value)
    ensures s.Resolved? && s.error.None? && s.session.None? ==> o == GoToLogin
    // from here on the profile query was made
    ensures ProfileQueryKey(s).Some? ==>
      match q
      case QueryRejected(m) => o == ErrorState("Profile fetch error: " + m)
      case QueryError(c, m) =>
        o == if c == NotSingleRowCode then GoToOnboarding else ErrorState("Profile error: " + m)
      case Row(p) => o == if IsComplete(p) then ProfileLoaded(p) else GoToOnboarding
    // a profile is loaded exactly when there is a session, the query returns a
    // row, and that row has a face image; the loaded profile is that row
    ensures o.ProfileLoaded? <==> ProfileQueryKey(s).Some? && q.Row? && IsComplete(q.profile)
    ensures o.ProfileLoaded? ==> o.profile == q.profile
    // onboarding is chosen for a missing row or a row without a face image,
    // whatever its social fields hold
    ensures o.GoToOnboarding? <==>
      ProfileQueryKey(s).Some? &&
      ((q.QueryError? && q.code == NotSingleRowCode) || (q.Row? && !IsComplete(q.profile)))
    ensures o.GoToLogin? <==> s.Resolved? && s.error.None? && s.session.None?
  {
    match s
    case Rejected(m) => ErrorState("Auth error: " + m)
    case Resolved(session, error) =>
      if error.Some? then ErrorState("Session error: " + error.value)
      else if session.None? then GoToLogin
      else
        match q
        case QueryRejected(m) => ErrorState("Profile fetch error: " + m)
        case QueryError(code, m) =>
          if code == NotSingleRowCode then GoToOnboarding else ErrorState("Profile error: " + m)
        case Row(p) => if !Truthy(p.faceImageUrl) then GoToOnboarding else ProfileLoaded(p)
  }

  /** Where a run navigates to, if anywhere. */
  function NavigationOf(o: Outcome): (path: Option<string>)
    ensures path == Some("/login") <==> o.GoToLogin?
    ensures path == Some("/onboarding") <==> o.GoToOnboarding?
    ensures path.None? <==> o.ErrorState? || o.ProfileLoaded?
  {
    match o
    case GoToLogin => Some("/login")
    case GoToOnboarding => Some("/onboarding")
    case _ => None
  }

  /** When no profile query is made, its answer cannot influence the outcome. */
  lemma OutcomeIgnoresUnmadeQuery(s: GetSession, q1: ProfileQuery, q2: ProfileQuery)
    requires ProfileQueryKey(s).None?
    ensures Resolve(s, q1) == Resolve(s, q2)
    ensures !Resolve(s, q1).GoToOnboarding? && !Resolve(s, q1).ProfileLoaded?
  {
  }

  /** The answer of `auth.signOut()`: resolved with an optional error, or rejected. */
  datatype SignOutAnswer =
    | SignOutResolved(error: Option<string>)
    | SignOutRejected(message: string)

  /** The state cells of the hook. */
  class AuthHook {
    var userProfile: Option<UserProfile>
    var isProfileLoading: bool
    var hasError: bool
    var errorMessage: string

    constructor ()
      ensures userProfile.None? && isProfileLoading
      ensures !hasError && errorMessage == ""
    {
      userProfile := None;
      isProfileLoading := true;
      hasError := false;
      errorMessage := "";
    }

    /**
     * One run of `checkAuth`. `users` stands for the remote table: the
     * answer the profile query gives for a uid. Returns the path navigated
     * to and the uid the profile query was made for.
     */
    method CheckAuth(s: GetSession, users: string -> ProfileQuery)
      returns (navigatedTo: Option<string>, queried: Option<string>)
      modifies this
      ensures queried == ProfileQueryKey(s)
      ensures var o := Resolve(s, users(if queried.Some? then queried.value else ""));
        && navigatedTo == NavigationOf(o)
        && (if o.ErrorState?
            then hasError && errorMessage == o.message
                 && userProfile == old(userProfile) && isProfileLoading == old(isProfileLoading)
            else hasError == old(hasError) && errorMessage == old(errorMessage))
        && (if o.ProfileLoaded?
            then userProfile == Some(o.profile) && !isProfileLoading
            else userProfile == old(userProfile) && isProfileLoading == old(isProfileLoading))
    {
      queried := None;
      navigatedTo := None;
      match s {
        case Rejected(m) =>
          hasError := true;
          errorMessage := "Auth error: " + m;
          return;
        case Resolved(session, sessionError) =>
          if sessionError.Some? {
            hasError := true;
            errorMessage := "Session error: " + sessionError.value;
            return;
          }
          if session.None? {
            navigatedTo := Some("/login");
            return;
          }
          queried := Some(session.value.user.id);
          var q := users(session.value.user.id);
          match q {
            case QueryRejected(m) =>
              hasError := true;
              errorMessage := "Profile fetch error: " + m;
            case QueryError(code, m) =>
              if code == NotSingleRowCode {
                navigatedTo := Some("/onboarding");
                return;
              }
              hasError := true;
              errorMessage := "Profile error: " + m;
            case Row(p) =>
              if !Truthy(p.faceImageUrl) {
                navigatedTo := Some("/onboarding");
                return;
              }
              userProfile := Some(p);
              isProfileLoading := false;
          }
      }
    }

    /**
     * `handleSignOut`: navigates to `/login` only when `signOut` resolves
     * without an error; otherwise raises an error toast and stays.
     */
    method SignOut(answer: SignOutAnswer) returns (navigatedTo: Option<string>, toast: Option<Toast>)
      ensures navigatedTo.Some? <==> answer == SignOutResolved(None)
      ensures navigatedTo.Some? ==> navigatedTo.value == "/login" && toast.None?
      ensures navigatedTo.None? ==>
        toast.Some? && toast.value.destructive && toast.value.title == "Error signing out"
      ensures answer.SignOutRejected? ==>
        toast == Some(Toast("Error signing out", OrElse(answer.message, "Unknown error occurred"), true))
      ensures answer.SignOutResolved? && answer.error.Some? ==>
        toast == Some(Toast("Error signing out", OrElse(answer.error.value, "Unknown error occurred"), true))
    {
      var failure: Option<string> := None;
      match answer {
        case SignOutRejected(m) => failure := Some(m);
        case SignOutResolved(error) => failure := error;
      }
      if failure.None? {
        navigatedTo := Some("/login");
        toast := None;
      } else {
        navigatedTo := None;
        toast := Some(Toast("Error signing out", OrElse(failure.value, "Unknown error occurred"), true));
      }
    }
  }

  /**
   * Starting from the hook's initial state, one run never both flags an
   * error and loads a profile, and leaves the state unchanged when it only
   * navigates.
   */
  method FreshRun(s: GetSession, users: string -> ProfileQuery)
    returns (hook: AuthHook, navigatedTo: Option<string>)
    ensures !(hook.hasError && hook.userProfile.Some?)
    ensures hook.userProfile.Some? <==> !hook.isProfileLoading
    ensures navigatedTo.Some? ==> !hook.hasError && hook.userProfile.None? && hook.isProfileLoading
    ensures hook.hasError <==> hook.errorMessage != ""
  {
    hook := new AuthHook();
    var queried;
    navigatedTo, queried := hook.CheckAuth(s, users);
  }
}
