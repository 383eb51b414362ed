/**
 * `AdminsClient`: superuser authentication. A successful authentication
 * is saved into the store when one is set; logging out always clears it.
 */
module AdminsClient {
  import opened Wrappers
  import opened Values
  import opened Text
  import Options
  import BaseClient
  import AuthStore
  import PocketBaseStore

  const PasswordPath := "api/collections/_superusers/auth-with-password"
  const RefreshPath := "api/_superusers/auth-refresh"
  const LogoutPath := "api/_superusers/logout"

  /** The impersonation path of a record. */
  function ImpersonatePath(collectionName: string, recordId: string): (r: string)
    ensures r == "api/collections/" + collectionName + "/impersonate/" + recordId
  {
    "api/collections/" + collectionName + "/impersonate/" + recordId
  }

  /** The body of a password authentication. */
  function PasswordBody(email: string, password: string): (r: Body)
    ensures r.DictionaryBody? && r.entries.Keys == {"identity", "password"}
    ensures r.entries["identity"] == JString(email) && r.entries["password"] == JString(password)
  {
    DictionaryBody(map["identity" := JString(email), "password" := JString(password)])
  }

  /** The checks of `AuthWithPasswordAsync`, in order: a blank email, then a blank password. */
  function PasswordArguments(email: Option<string>, password: Option<string>): (r: Option<Exn>)
    ensures IsNullOrWhiteSpace(email) ==> r == Some(Argument("Email must be provided.", "email"))
    ensures !IsNullOrWhiteSpace(email) && IsNullOrWhiteSpace(password) ==> r == Some(Argument("Password must be provided.", "password"))
    ensures r.None? <==> !IsNullOrWhiteSpace(email) && !IsNullOrWhiteSpace(password)
  {
    RequiredPair(email, "Email must be provided.", "email", password, "Password must be provided.", "password")
  }

  /** The checks of `ImpersonateAsync`, in order: the collection name, then the record id. */
  function ImpersonateArguments(collectionName: Option<string>, recordId: Option<string>): (r: Option<Exn>)
    ensures ThrowIfNullOrWhiteSpace(collectionName, "collectionName").Some? ==> r == ThrowIfNullOrWhiteSpace(collectionName, "collectionName")
    ensures r.None? <==> !IsNullOrWhiteSpace(collectionName) && !IsNullOrWhiteSpace(recordId)
    ensures !IsNullOrWhiteSpace(collectionName) ==> r == ThrowIfNullOrWhiteSpace(recordId, "recordId")
  {
    var c := ThrowIfNullOrWhiteSpace(collectionName, "collectionName");
    if c.Some? then c else ThrowIfNullOrWhiteSpace(recordId, "recordId")
  }

  class Client {
    var store: PocketBaseStore.Store?

    constructor()
      ensures store == null
    {
      store := null;
    }

    /** A successful result is saved into the store, when one is set, and returned; a failure leaves the store alone. */
    method SaveOnSuccess(result: Response<AuthStore.AuthResponse>) returns (r: Response<AuthStore.AuthResponse>)
      modifies if store != null then {store, store.auth} else {}
      ensures r == result
      ensures result.Ok? && store != null ==> store.currentSession == Some(result.value) && store.InSync()
      ensures result.Fail? && store != null ==> store.currentSession == old(store.currentSession) && store.auth.currentSession == old(store.auth.currentSession)
    {
      if result.Ok? {
        if store != null {
          store.Save(result.value);
        }
        return Ok(result.value);
      }
      return Fail(result.errors);
    }

    /** `AuthWithPasswordAsync`: the argument checks come before any request. */
    method AuthWithPassword(email: Option<string>, password: Option<string>, send: Request -> Response<AuthStore.AuthResponse>)
      returns (r: Result<Response<AuthStore.AuthResponse>, Exn>)
      modifies if store != null then {store, store.auth} else {}
      ensures PasswordArguments(email, password).Some? ==>
        r == Failure(PasswordArguments(email, password).value)
        && (store != null ==> store.currentSession == old(store.currentSession) && store.auth.currentSession == old(store.auth.currentSession))
      ensures PasswordArguments(email, password).None? ==>
        var response := send(Request(Post, PasswordPath, Some(PasswordBody(email.value, password.value)), None));
        r == Success(response)
        && (response.Ok? && store != null ==> store.currentSession == Some(response.value) && store.InSync())
        && (response.Fail? && store != null ==> store.currentSession == old(store.currentSession) && store.auth.currentSession == old(store.auth.currentSession))
    {
      var bad := PasswordArguments(email, password);
      if bad.Some? {
        return Failure(bad.value);
      }
      var response := send(Request(Post, PasswordPath, Some(PasswordBody(email.value, password.value)), None));
      var result := SaveOnSuccess(response);
      r := Success(result);
    }

    /** `AuthRefreshAsync`: the options' query (page 1, 30 per page by default) with a POST to the refresh path. */
    method AuthRefresh(options: Options.SendOptions?, send: Request -> Response<AuthStore.AuthResponse>) returns (r: Response<AuthStore.AuthResponse>)
      modifies options, if options != null && options.query != null then {options.query} else {}
      modifies if store != null then {store, store.auth} else {}
      ensures options == null ==> r == send(Request(Post, RefreshPath, None, Some(Options.DefaultQuery(Options.DefaultPage, Options.DefaultPerPage))))
      ensures options != null ==> options.query != null && r == send(Request(Post, RefreshPath, None, Some(options.query.entries)))
      ensures options != null ==> options.Values() == old(options.Values()) && options.query.entries == Options.Extend(options.kind, options.Values(),
        if old(options.query) != null then old(options.query.entries) else Options.DefaultQuery(Options.DefaultPage, Options.DefaultPerPage))
      ensures r.Ok? && store != null ==> store.currentSession == Some(r.value) && store.InSync()
      ensures r.Fail? && store != null ==> store.currentSession == old(store.currentSession) && store.auth.currentSession == old(store.auth.currentSession)
    {
      var used := BaseClient.PrepareQuery(Options.DefaultPage, Options.DefaultPerPage, options);
      var response := send(Request(Post, RefreshPath, None, Some(used.query.entries)));
      r := SaveOnSuccess(response);
    }

    /** `ImpersonateAsync`: the argument checks, then a POST of the duration to the record's impersonation path. */
    method Impersonate(collectionName: Option<string>, recordId: Option<string>, duration: int, options: Options.SendOptions?,
                       send: Request -> Response<AuthStore.AuthResponse>) returns (r: Result<Response<AuthStore.AuthResponse>, Exn>)
      modifies options, if options != null && options.query != null then {options.query} else {}
      modifies if store != null then {store, store.auth} else {}
      ensures ImpersonateArguments(collectionName, recordId).Some? ==>
        r == Failure(ImpersonateArguments(collectionName, recordId).value)
        && (store != null ==> store.currentSession == old(store.currentSession) && store.auth.currentSession == old(store.auth.currentSession))
        && (options != null ==> unchanged(options)) && (options != null && options.query != null ==> unchanged(options.query))
      ensures ImpersonateArguments(collectionName, recordId).None? ==>
        r.Success? && (options != null ==> options.query != null)
        && r.value == send(Request(Post, ImpersonatePath(collectionName.value, recordId.value),
                                   Some(DictionaryBody(map["duration" := JNumber(duration)])),
                                   Some(if options == null then Options.DefaultQuery(Options.DefaultPage, Options.DefaultPerPage) else options.query.entries)))
        && (r.value.Ok? && store != null ==> store.currentSession == Some(r.value.value) && store.InSync())
        && (r.value.Fail? && store != null ==> store.currentSession == old(store.currentSession) && store.auth.currentSession == old(store.auth.currentSession))
        && (options != null ==> options.Values() == old(options.Values()) && options.query.entries == Options.Extend(options.kind, options.Values(),
          if old(options.query) != null then old(options.query.entries) else Options.DefaultQuery(Options.DefaultPage, Options.DefaultPerPage)))
    {
      var bad := ImpersonateArguments(collectionName, recordId);
      if bad.Some? {
        return Failure(bad.value);
      }
      var used := BaseClient.PrepareQuery(Options.DefaultPage, Options.DefaultPerPage, options);
      var response := send(Request(Post, ImpersonatePath(collectionName.value, recordId.value),
                                   Some(DictionaryBody(map["duration" := JNumber(duration)])), Some(used.query.entries)));
      var result := SaveOnSuccess(response);
      r := Success(result);
    }

    /** `LogoutAsync`: sends the logout request, clears the store whatever the answer, and returns Ok. */
    method Logout() returns (request: Request, r: Response<()>)
      modifies if store != null then {store, store.auth} else {}
      ensures request == Request(Post, LogoutPath, None, None)
      ensures r == Ok(())
      ensures store != null ==> store.currentSession == None && store.Token() == None && store.InSync()
    {
      request := Request(Post, LogoutPath, None, None);
      if store != null {
        store.Clear();
      }
      r := Ok(());
    }

    /** `SetStore`: a null store throws and changes nothing. */
    method SetStore(store: PocketBaseStore.Store?) returns (r: Option<Exn>)
      modifies this
      ensures store == null ==> r == Some(ArgumentNull("store")) && this.store == old(this.store)
      ensures store != null ==> r == None && this.store == store
    {
      if store == null {
        return Some(ArgumentNull("store"));
      }
      this.store := store;
      r := None;
    }
  }
}
