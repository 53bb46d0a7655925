/**
 * Values shared by the hooks, contexts and pages: an optional value, the
 * identity provider's user and session, the shape of a `getSession` answer,
 * and the toast notifications the pages raise.
 */
module Common {

  datatype Option<+T> = None | Some(value: T)

  /** The provider's user object; only its identifier is ever read. */
  datatype User = User(id: string)

  /** A live session: an opaque access token and the user it belongs to. */
  datatype Session = Session(accessToken: string, user: User)

  /**
   * What awaiting `supabase.auth.getSession()` yields: either it resolves
   * with `{ data: { session }, error }` (the error is an optional message),
   * or the promise rejects with an exception carrying a message.
   */
  datatype GetSession =
    | Resolved(session: Option<Session>, error: Option<string>)
    | Rejected(message: string)

  /** A toast notification; `destructive` is the red "error" variant. */
  datatype Toast = Toast(title: string, description: string, destructive: bool)

  /** JavaScript truthiness of a nullable string: present and non-empty. */
  predicate Truthy(s: Option<string>)
  {
    s.Some? && s.value != ""
  }

  /** `message || fallback`: the message unless it is empty. */
  function OrElse(message: string, fallback: string): (r: string)
    ensures message != "" ==> r == message
    ensures message == "" ==> r == fallback
  {
    if message != "" then message else fallback
  }
}
