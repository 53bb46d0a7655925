/**
 * `ProtectedRoute`: checks the session once on mount and renders a spinner,
 * a redirect, or its children.
 */
module ProtectedRoute {
  import opened Common

  /** What the component renders. */
  datatype View = Spinner | Redirect(to: string) | Children

  /** The value `checkAuth` stores in `isAuth` for a `getSession` answer. */
  function AuthFrom(answer: GetSession): (isAuth: bool)
    ensures isAuth <==> answer.Resolved? && answer.error.None? && answer.session.Some?
  {
    match answer
    case Rejected(_) => false
    case Resolved(session, error) => if error.Some? then false else session.Some?
  }

  /**
   * The render decision on the two state cells: `isAuth` is null (None)
   * until the check has stored a value, and null counts as "not signed in".
   */
  function Decide(isLoading: bool, isAuth: Option<bool>, redirectTo: string): (v: View)
    ensures v == Spinner <==> isLoading
    ensures v == Children <==> !isLoading && isAuth == Some(true)
    ensures v.Redirect? <==> !isLoading && isAuth != Some(true)
    ensures v.Redirect? ==> v.to == redirectTo
  {
    if isLoading then Spinner
    else if isAuth != Some(true) then Redirect(redirectTo)
    else Children
  }

  /** The default of the optional `redirectTo` prop. */
  function RedirectTarget(prop: Option<string>): (to: string)
    ensures prop.None? ==> to == "/login"
    ensures prop.Some? ==> to == prop.value
  {
    if prop.Some? then prop.value else "/login"
  }

  /**
   * Once the check has finished, the children are rendered exactly when the
   * session answer carried no error and a session.
   */
  lemma ChildrenOnlyForSession(answer: GetSession, redirectTo: string)
    ensures Decide(false, Some(AuthFrom(answer)), redirectTo) == Children
      <==> answer.Resolved? && answer.error.None? && answer.session.Some?
    ensures answer.Rejected? || answer.error.Some? ==>
      Decide(false, Some(AuthFrom(answer)), redirectTo) == Redirect(redirectTo)
  {
  }

  class Guard {
    var isAuth: Option<bool>
    var isLoading: bool
    const redirectTo: string

    constructor (redirectProp: Option<string>)
      ensures redirectTo == RedirectTarget(redirectProp)
      ensures isAuth.None? && isLoading
      ensures Render() == Spinner
    {
      redirectTo := RedirectTarget(redirectProp);
      isAuth := None;
      isLoading := true;
    }

    function Render(): (v: View)
      reads this
    {
      Decide(isLoading, isAuth, redirectTo)
    }

    /**
     * `checkAuth`: the try/catch stores the answer's verdict in `isAuth`,
     * and the `finally` clears `isLoading` on every path.
     */
    method CheckAuth(answer: GetSession)
      modifies this
      ensures !isLoading
      ensures isAuth == Some(AuthFrom(answer))
      ensures Render() == (if AuthFrom(answer) then Children else Redirect(redirectTo))
    {
      match answer {
        case Rejected(_) =>
          isAuth := Some(false);
        case Resolved(session, error) =>
          if error.Some? {
            isAuth := Some(false);
          } else {
            isAuth := Some(session.Some?);
          }
      }
      isLoading := false;
    }
  }
}
