/**
 * The login screen's logic (app/auth/login.tsx): the submit guard, what a
 * submit does to the store and to secure storage, and the text-change
 * handlers that clear a displayed error.
 */
module LoginScreen {
  import opened Wrappers
  import opened Types
  import opened Strings
  import opened Storage
  import opened Api
  import opened Auth

  /** `handleLogin`: the credentials it dispatches login with, or None when it returns early. */
  function HandleLogin(email: string, password: string): (r: Option<Credentials>)
    ensures r.Some? <==> email != "" && password != ""
    ensures r.Some? ==> r.value.email == email && r.value.password == password
  {
    if email == "" || password == "" then None else Some(Credentials(email, password))
  }

  /**
   * `handleLogin` with the store and storage it acts on, given the server's
   * replies to the login request and to the profile request that follows
   * it. The store sees login pending, then, once the login request has
   * succeeded, the nested fetchProfile's pending and settled actions, then
   * login settled. A 401 on the profile request leaves the driver signed in
   * with no token in storage.
   */
  method SubmitLogin(store: SecureStore, auth: AuthStore, email: string, password: string,
                     reply: Result<SessionTokens, ApiError>, profileReply: Result<User, ApiError>)
    returns (sent: bool)
    requires auth.Valid()
    modifies store, auth
    ensures auth.Valid()
    ensures sent <==> email != "" && password != ""
    ensures !sent ==> store.items == old(store.items) && auth.State() == old(auth.State())
    ensures sent ==> !auth.loading && auth.isInitialized == old(auth.isInitialized)
    ensures sent && reply.Failure? ==>
              auth.error == Some(LoginErrorMessage(reply.error)) && auth.token == old(auth.token) &&
              auth.isAuthenticated == old(auth.isAuthenticated) && auth.user == old(auth.user)
    ensures sent && reply.Success? ==>
              auth.isAuthenticated && auth.token == Some(reply.value.accessToken) && auth.error == None
    ensures sent && reply.Success? && profileReply.Failure? ==> auth.user == Some(FallbackLoginUser(email))
    ensures (sent && reply.Success? && profileReply.Failure? && Unauthorized(profileReply.error)) ==>
              auth.isAuthenticated && StoredToken(store.items) == None
  {
    var credentials := HandleLogin(email, password);
    sent := credentials.Some?;
    if sent {
      auth.Dispatch(LoginAction(Phase.Pending));
      if reply.Success? {
        auth.Dispatch(FetchProfileAction(Phase.Pending));
        auth.Dispatch(FetchProfileAction(FetchProfileOutcome(profileReply)));
      }
      var outcome := Login(store, credentials.value, reply, profileReply);
      auth.Dispatch(LoginAction(outcome));
    }
  }

  /**
   * The change handler of either field: `if (error) dispatch(clearError())`.
   * An error message that is the empty string is falsy and stays.
   */
  method EditField(auth: AuthStore) returns (dispatched: bool)
    requires auth.Valid()
    modifies auth
    ensures auth.Valid()
    ensures dispatched <==> Truthy(old(auth.error))
    ensures auth.error == if dispatched then None else old(auth.error)
    ensures auth.user == old(auth.user) && auth.token == old(auth.token)
    ensures auth.isAuthenticated == old(auth.isAuthenticated) && auth.loading == old(auth.loading)
    ensures auth.isInitialized == old(auth.isInitialized)
  {
    dispatched := auth.error.Some? && auth.error.value != "";
    if dispatched {
      auth.ClearError();
    }
  }

  /**
   * The email typed on the login screen is the one the session's user
   * carries when the profile cannot be fetched afterwards.
   */
  lemma TypedEmailReachesFallbackUser(email: string, password: string)
    requires email != "" && password != ""
    ensures HandleLogin(email, password) == Some(Credentials(email, password))
    ensures FallbackLoginUser(HandleLogin(email, password).value.email).email == Some(email)
  {
  }
}
