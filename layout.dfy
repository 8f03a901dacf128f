/**
 * The root layout (app/_layout.tsx): it dispatches loadUser once at
 * start-up, and its route guard then sends a signed-out driver to the login
 * screen and a signed-in driver away from the auth screens.
 */
module RootLayout {
  import opened Wrappers
  import opened Types
  import opened Strings
  import opened Storage
  import opened Api
  import opened Auth

  /** The two places the guard redirects to. */
  datatype Route = LoginRoute | TabsRoute

  function RoutePath(r: Route): string {
    match r
    case LoginRoute => "/auth/login"
    case TabsRoute => "/(tabs)"
  }

  /** The route segments the router reports once a route is shown. */
  function RouteSegments(r: Route): seq<string> {
    match r
    case LoginRoute => ["auth", "login"]
    case TabsRoute => ["(tabs)"]
  }

  /** `segments[0] === 'auth'`; an empty segment list has no first segment. */
  predicate InAuthGroup(segments: seq<string>) {
    |segments| > 0 && segments[0] == "auth"
  }

  /** The redirect the guard performs, if any. */
  function AuthRedirect(isInitialized: bool, isAuthenticated: bool, segments: seq<string>): (r: Option<Route>)
    ensures !isInitialized ==> r == None
    ensures r.Some? <==> isInitialized && isAuthenticated == InAuthGroup(segments)
    ensures r.Some? ==> r.value == if isAuthenticated then TabsRoute else LoginRoute
  {
    if !isInitialized then None
    else
      var inAuthGroup := InAuthGroup(segments);
      if !isAuthenticated && !inAuthGroup then Some(LoginRoute)
      else if isAuthenticated && inAuthGroup then Some(TabsRoute)
      else None
  }

  /** Where the driver is allowed to stay: auth screens when signed out, the rest when signed in. */
  lemma GuardKeepsDriversWhereTheyBelong(isAuthenticated: bool, segments: seq<string>)
    ensures AuthRedirect(true, isAuthenticated, segments) == None <==> isAuthenticated != InAuthGroup(segments)
    ensures !isAuthenticated && !InAuthGroup(segments) ==> AuthRedirect(true, false, segments) == Some(LoginRoute)
    ensures isAuthenticated && InAuthGroup(segments) ==> AuthRedirect(true, true, segments) == Some(TabsRoute)
  {
  }

  /** Following a redirect leads to a route the guard accepts: there is no redirect loop. */
  lemma RedirectSettles(isAuthenticated: bool, segments: seq<string>)
    requires AuthRedirect(true, isAuthenticated, segments).Some?
    ensures AuthRedirect(true, isAuthenticated, RouteSegments(AuthRedirect(true, isAuthenticated, segments).value)) == None
  {
  }

  /**
   * The start-up effect: `dispatch(loadUser())`, given the reply to the
   * profile request the thunk makes when a token is stored. The store sees
   * loadUser pending, then the nested fetchProfile's pending and settled
   * actions (only when a token is stored), then loadUser settled. Start-up
   * always ends initialised and not loading, signed in exactly when a
   * non-empty token and a readable user were stored. A 401 on the profile
   * request leaves the store signed in with a token that storage no longer
   * holds.
   */
  method StartUp(store: SecureStore, auth: AuthStore, profileReply: Result<User, ApiError>)
    returns (outcome: Phase<StoredSession>)
    requires auth.Valid()
    modifies store, auth
    ensures auth.Valid() && auth.isInitialized && !auth.loading
    ensures auth.isAuthenticated <==>
              Truthy(StoredToken(old(store.items))) && ParseStoredUser(Lookup(old(store.items), UserKey)).Success?
    ensures auth.isAuthenticated ==> auth.token == StoredToken(old(store.items))
    ensures (auth.isAuthenticated && profileReply.Failure? && Unauthorized(profileReply.error)) ==>
              auth.token.Some? && StoredToken(store.items) == None
    ensures AuthRedirect(auth.isInitialized, auth.isAuthenticated, RouteSegments(TabsRoute)) ==
              if auth.isAuthenticated then None else Some(LoginRoute)
  {
    auth.Dispatch(LoadUserAction(Phase.Pending));
    if Truthy(StoredToken(store.items)) {
      auth.Dispatch(FetchProfileAction(Phase.Pending));
      auth.Dispatch(FetchProfileAction(FetchProfileOutcome(profileReply)));
    }
    outcome := LoadUser(store, profileReply);
    auth.Dispatch(LoadUserAction(outcome));
  }
}
