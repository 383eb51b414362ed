/**
 * `PocketBaseStore`: the session of the client, mirrored into its
 * `AuthStore`, and the two realtime clients, fixed at construction.
 */
module PocketBaseStore {
  import opened Wrappers
  import opened Values
  import AuthStore
  import RealtimeClient
  import RealtimeSseClient

  class Store {
    const auth: AuthStore.Store
    const realtime: RealtimeClient.Client
    const realtimeSse: RealtimeSseClient.SseClient
    var currentSession: Option<AuthStore.AuthResponse>

    /** `Token`: the current session's token, null without a session. */
    function Token(): (r: Option<string>)
      reads this
      ensures r == AuthStore.SessionToken(currentSession)
    {
      if currentSession.Some? then Some(currentSession.value.token) else None
    }

    /** The inner `AuthStore` holds the same session and token as this store. */
    predicate InSync()
      reads this, auth
    {
      auth.currentSession == currentSession && auth.token == Token()
    }

    /**
     * The constructor with its arguments present: no session of its own, so
     * the inner store is in sync only when it has none either.
     */
    constructor(auth: AuthStore.Store, realtime: RealtimeClient.Client, realtimeSse: RealtimeSseClient.SseClient)
      ensures this.auth == auth && this.realtime == realtime && this.realtimeSse == realtimeSse
      ensures currentSession == None && Token() == None
    {
      this.auth := auth;
      this.realtime := realtime;
      this.realtimeSse := realtimeSse;
      currentSession := None;
    }

    /** `Save`: the session, here and in the inner store. */
    method Save(session: AuthStore.AuthResponse)
      modifies this, auth
      ensures currentSession == Some(session) && Token() == Some(session.token)
      ensures InSync() && auth.Consistent()
    {
      currentSession := Some(session);
      auth.Save(session);
    }

    /** `Clear`: no session, here and in the inner store. */
    method Clear()
      modifies this, auth
      ensures currentSession == None && Token() == None
      ensures InSync() && auth.Consistent()
    {
      currentSession := None;
      auth.Clear();
    }
  }

  /** The constructor's argument checks, in order: a null auth store, then realtime client, then SSE client is rejected. */
  method New(auth: AuthStore.Store?, realtime: RealtimeClient.Client?, realtimeSse: RealtimeSseClient.SseClient?)
    returns (r: Result<Store, Exn>)
    ensures auth == null ==> r == Failure(ArgumentNull("auth"))
    ensures auth != null && realtime == null ==> r == Failure(ArgumentNull("realtime"))
    ensures auth != null && realtime != null && realtimeSse == null ==> r == Failure(ArgumentNull("realtimeSse"))
    ensures r.Success? <==> auth != null && realtime != null && realtimeSse != null
    ensures r.Success? ==>
      fresh(r.value) && r.value.auth == auth && r.value.realtime == realtime
      && r.value.realtimeSse == realtimeSse && r.value.currentSession == None
  {
    if auth == null {
      return Failure(ArgumentNull("auth"));
    }
    if realtime == null {
      return Failure(ArgumentNull("realtime"));
    }
    if realtimeSse == null {
      return Failure(ArgumentNull("realtimeSse"));
    }
    var store := new Store(auth, realtime, realtimeSse);
    return Success(store);
  }
}
