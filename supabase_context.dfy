/**
 * `SupabaseProvider`: a store of three cells (`user`, `session`,
 * `isLoading`) that the initial `getSession` callback and every
 * auth-state-change callback overwrite with the same update.
 */
module SupabaseContext {
  import opened Common

  /** The store's three cells as a value. */
  datatype StoreState = StoreState(user: Option<User>, session: Option<Session>, isLoading: bool)

  const Initial := StoreState(None, None, true)

  /** `user` is the session's user when there is a session, and null otherwise. */
  predicate Consistent(st: StoreState)
  {
    if st.session.None? then st.user.None? else st.user == Some(st.session.value.user)
  }

  /** The update both callbacks apply: store the session, derive the user, stop loading. */
  function Apply(session: Option<Session>): (st: StoreState)
    ensures st.session == session && !st.isLoading && Consistent(st)
  {
    StoreState(if session.Some? then Some(session.value.user) else None, session, false)
  }

  /** The store after a sequence of callbacks, each delivering a session (or null). */
  function Replay(st: StoreState, sessions: seq<Option<Session>>): (r: StoreState)
    decreases sessions
  {
    if sessions == [] then st else Replay(Apply(sessions[0]), sessions[1..])
  }

  /**
   * After at least one callback the store depends only on the last session
   * delivered: it holds that session, is consistent, and is no longer loading.
   */
  lemma {:induction false} ReplayKeepsLast(st: StoreState, sessions: seq<Option<Session>>)
    requires sessions != []
    ensures Replay(st, sessions) == Apply(sessions[|sessions| - 1])
    ensures Consistent(Replay(st, sessions)) && !Replay(st, sessions).isLoading
    decreases sessions
  {
    if |sessions| > 1 {
      ReplayKeepsLast(Apply(sessions[0]), sessions[1..]);
    }
  }

  /** Once loading has stopped, no sequence of callbacks starts it again. */
  lemma {:induction false} LoadingNeverResumes(st: StoreState, sessions: seq<Option<Session>>)
    requires !st.isLoading
    ensures !Replay(st, sessions).isLoading
    decreases sessions
  {
    if sessions != [] {
      LoadingNeverResumes(Apply(sessions[0]), sessions[1..]);
    }
  }

  class Provider {
    var user: Option<User>
    var session: Option<Session>
    var isLoading: bool

    function State(): (st: StoreState)
      reads this
    {
      StoreState(user, session, isLoading)
    }

    constructor ()
      ensures State() == Initial && Consistent(State())
    {
      user := None;
      session := None;
      isLoading := true;
    }

    method Store(s: Option<Session>)
      modifies this
      ensures State() == Apply(s)
    {
      session := s;
      user := if s.Some? then Some(s.value.user) else None;
      isLoading := false;
    }

    /**
     * The `.then` of the initial `getSession()`: the answer's error field is
     * ignored; a rejected promise never reaches the callback.
     */
    method InitialSessionFetched(answer: GetSession)
      modifies this
      ensures answer.Resolved? ==> State() == Apply(answer.session)
      ensures answer.Rejected? ==> State() == old(State())
    {
      if answer.Resolved? {
        Store(answer.session);
      }
    }

    /** The `onAuthStateChange` listener; the event name is not read. */
    method AuthStateChanged(event: string, s: Option<Session>)
      modifies this
      ensures State() == Apply(s)
      ensures Consistent(State()) && !isLoading
    {
      Store(s);
    }
  }
}
