/**
 * `AuthStore`: the current JWT token and the authentication session it
 * came from.
 */
module AuthStore {
  import opened Wrappers
  import opened Values

  /** An authentication response: the token and, for record auth, the record. */
  datatype AuthResponse = AuthResponse(token: string, record: Option<map<string, Json>>)

  /** The token a session gives: the session's own, and none without a session. */
  function SessionToken(session: Option<AuthResponse>): (r: Option<string>)
    ensures r.Some? <==> session.Some?
    ensures session.Some? ==> r.value == session.value.token
  {
    if session.Some? then Some(session.value.token) else None
  }

  class Store {
    var token: Option<string>
    var currentSession: Option<AuthResponse>

    /** The token is the current session's, or both are null. */
    predicate Consistent()
      reads this
    {
      token == SessionToken(currentSession)
    }

    /** Both start null. */
    constructor()
      ensures token == None && currentSession == None
      ensures Consistent()
    {
      token := None;
      currentSession := None;
    }

    /** `Save`: the session and its token. */
    method Save(auth: AuthResponse)
      modifies this
      ensures token == Some(auth.token) && currentSession == Some(auth)
      ensures Consistent()
    {
      token := Some(auth.token);
      currentSession := Some(auth);
    }

    /** `Clear`: both null. */
    method Clear()
      modifies this
      ensures token == None && currentSession == None
      ensures Consistent()
    {
      token := None;
      currentSession := None;
    }
  }
}
