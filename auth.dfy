/**
 * The auth slice of the Redux store (store/slices/authSlice.ts): the
 * signed-in driver, the access token, and the flags the screens and the
 * route guard read; and the thunks that talk to the backend and keep the
 * tokens and the profile in secure storage.
 */
module Auth {
  import opened Wrappers
  import opened Types
  import opened Strings
  import opened Storage
  import opened Api

  /** The body of `POST /drivers/sessions`. */
  datatype Credentials = Credentials(email: string, password: string)

  /** The body of `POST /drivers/registrations`. */
  datatype RegistrationRequest = RegistrationRequest(
    email: string,
    password: string,
    fullName: string,
    phone: string,
    vehicleType: string,
    licenseNumber: string)

  /** The reply to a login. */
  datatype SessionTokens = SessionTokens(accessToken: string, refreshToken: Option<string>)

  /** The reply to a registration. */
  datatype RegistrationReply = RegistrationReply(accessToken: string, refreshToken: Option<string>, driver: Option<User>)

  /** What login and register fulfil with. */
  datatype Session = Session(user: User, token: string)

  /** What loadUser fulfils with; the user may be null. */
  datatype StoredSession = StoredSession(token: string, user: Option<User>)

  const ProfileFallback := "Failed to fetch profile"
  const NoUserFound := "No user found"
  const LoadUserFailed := "Failed to load user"

  /** `email?.split('@')[0]`: the email's text before its first '@', or all of it without one. */
  function EmailLocalPart(email: Option<string>): (r: Option<string>)
    ensures r.Some? <==> email.Some?
    ensures r.Some? ==> r.value <= email.value && '@' !in r.value
    ensures r.Some? ==> r.value == email.value || email.value[|r.value|] == '@'
  {
    match email
    case None => None
    case Some(e) =>
      BeforeFirstChar(e, '@');
      Some(BeforeFirst(e, "@"))
  }

  /** `data.full_name || data.name || data.email?.split('@')[0] || 'Driver'` */
  function ProfileName(data: User): (r: string)
    ensures r != ""
    ensures Truthy(data.fullName) ==> r == data.fullName.value
    ensures !Truthy(data.fullName) && Truthy(data.name) ==> r == data.name.value
    ensures !Truthy(data.fullName) && !Truthy(data.name) && Truthy(EmailLocalPart(data.email)) ==>
              r == EmailLocalPart(data.email).value
    ensures !Truthy(data.fullName) && !Truthy(data.name) && !Truthy(EmailLocalPart(data.email)) ==>
              r == "Driver"
  {
    var candidates := [data.fullName, data.name, EmailLocalPart(data.email)];
    assert candidates[0] == data.fullName && candidates[1] == data.name;
    assert candidates[2] == EmailLocalPart(data.email);
    FirstTruthy(candidates, "Driver")
  }

  /**
   * With neither name present, the name is the email's text up to its
   * first '@' (when that text is not empty).
   */
  lemma ProfileNameFromEmail(data: User, k: nat)
    requires !Truthy(data.fullName) && !Truthy(data.name)
    requires data.email.Some? && 0 < k < |data.email.value| && data.email.value[k] == '@'
    requires forall j :: 0 <= j < k ==> data.email.value[j] != '@'
    ensures ProfileName(data) == data.email.value[..k]
  {
    var e := data.email.value;
    assert OccursAt(e, "@", k);
    forall j: nat | j < k ensures !OccursAt(e, "@", j) {
      assert e[j..j + 1] == [e[j]];
    }
    assert |BeforeFirst(e, "@")| == k;
  }

  /** fetchProfile: the reply with `name` filled in, or a rejection message. */
  function FetchProfileOutcome(reply: Result<User, ApiError>): (r: Phase<User>)
    ensures r.Fulfilled? <==> reply.Success?
    ensures reply.Success? ==> r.payload.name == Some(ProfileName(reply.value))
    ensures reply.Success? ==> r.payload.(name := reply.value.name) == reply.value
    ensures reply.Failure? ==> r.Rejected? && r.message != ""
  {
    match reply
    case Success(data) => Fulfilled(data.(name := Some(ProfileName(data))))
    case Failure(e) => Rejected(FirstTruthy([ResponseMessage(e)], ProfileFallback))
  }

  /** The message a failed login rejects with. */
  function LoginErrorMessage(e: ApiError): (r: string)
    ensures r != ""
    ensures Truthy(ResponseMessage(e)) ==> r == ResponseMessage(e).value
    ensures !Truthy(ResponseMessage(e)) && Truthy(ResponseErrorField(e)) ==> r == ResponseErrorField(e).value
    ensures !Truthy(ResponseMessage(e)) && !Truthy(ResponseErrorField(e)) && Truthy(ResponseText(e)) ==>
              r == ResponseText(e).value
    ensures !Truthy(ResponseMessage(e)) && !Truthy(ResponseErrorField(e)) && !Truthy(ResponseText(e)) ==>
              r == if e.message != "" then e.message else "Login failed"
  {
    var candidates := [ResponseMessage(e), ResponseErrorField(e), ResponseText(e), Some(e.message)];
    assert candidates[0] == ResponseMessage(e) && candidates[1] == ResponseErrorField(e);
    assert candidates[2] == ResponseText(e) && candidates[3] == Some(e.message);
    FirstTruthy(candidates, "Login failed")
  }

  /** The message a failed registration rejects with; it also looks at a validation `errors` list. */
  function RegisterErrorMessage(e: ApiError): (r: string)
    ensures r != ""
    ensures Truthy(ResponseMessage(e)) ==> r == ResponseMessage(e).value
    ensures !Truthy(ResponseMessage(e)) && Truthy(ResponseErrorField(e)) ==> r == ResponseErrorField(e).value
    ensures !Truthy(ResponseMessage(e)) && !Truthy(ResponseErrorField(e)) && Truthy(ResponseErrorsJson(e)) ==>
              r == ResponseErrorsJson(e).value
    ensures (!Truthy(ResponseMessage(e)) && !Truthy(ResponseErrorField(e)) && !Truthy(ResponseErrorsJson(e)) &&
             Truthy(ResponseText(e))) ==> r == ResponseText(e).value
    ensures (!Truthy(ResponseMessage(e)) && !Truthy(ResponseErrorField(e)) && !Truthy(ResponseErrorsJson(e)) &&
             !Truthy(ResponseText(e))) ==> r == if e.message != "" then e.message else "Registration failed"
  {
    var candidates := [ResponseMessage(e), ResponseErrorField(e), ResponseErrorsJson(e), ResponseText(e), Some(e.message)];
    assert candidates[0] == ResponseMessage(e) && candidates[1] == ResponseErrorField(e);
    assert candidates[2] == ResponseErrorsJson(e) && candidates[3] == ResponseText(e);
    assert candidates[4] == Some(e.message);
    FirstTruthy(candidates, "Registration failed")
  }

  /**
   * The user login falls back to when the profile cannot be fetched: it
   * carries the typed email and is named 'Driver'.
   */
  function FallbackLoginUser(email: string): (u: User)
    ensures u.id == "unknown" && u.email == Some(email) && u.phone == Some("")
    ensures ProfileName(u) == "Driver"
  {
    User("unknown", Some("Driver"), Some(email), Some(""), None, None, None, Some("Driver"))
  }

  /**
   * The user register falls back to when the reply has no driver: it
   * carries the form's email and phone and is named after the form's full name.
   */
  function FallbackRegisteredUser(request: RegistrationRequest): (u: User)
    ensures u.id == "new" && u.email == Some(request.email) && u.phone == Some(request.phone)
    ensures request.fullName != "" ==> ProfileName(u) == request.fullName
  {
    User("new", Some(request.fullName), Some(request.email), Some(request.phone), None, None, None,
         Some(request.fullName))
  }

  /** Storage after a login or registration reply: the access token, and the refresh token only if one came. */
  function SessionWrites(items: map<string, StoredValue>, accessToken: string, refreshToken: Option<string>)
    : map<string, StoredValue>
  {
    var withToken := items[TokenKey := Text(accessToken)];
    if Truthy(refreshToken) then withToken[RefreshTokenKey := Text(refreshToken.value)] else withToken
  }

  /** Storage after logout. */
  function LogoutWrites(items: map<string, StoredValue>): map<string, StoredValue> {
    items - {TokenKey} - {UserKey}
  }

  /** `userStr ? JSON.parse(userStr) : null`; any text other than a stored profile fails to parse. */
  function ParseStoredUser(v: Option<StoredValue>): (r: Result<Option<User>, string>)
    ensures r.Failure? <==> v.Some? && v.value.Text? && v.value.text != ""
    ensures r.Failure? ==> r.error == LoadUserFailed
    ensures v.Some? && v.value.UserRecord? ==> r == Success(Some(v.value.user))
    ensures r.Success? && r.value.Some? ==> v == Some(UserRecord(r.value.value))
  {
    match v
    case None => Success(None)
    case Some(UserRecord(u)) => Success(Some(u))
    case Some(Text(s)) => if s == "" then Success(None) else Failure(LoadUserFailed)
  }

  /**
   * The login thunk, given the server's reply to `POST /drivers/sessions`
   * and to the profile request it makes next. Both requests pass the
   * response interceptor, so a 401 on the profile request deletes the token
   * just stored.
   */
  method Login(store: SecureStore, credentials: Credentials, reply: Result<SessionTokens, ApiError>,
               profileReply: Result<User, ApiError>) returns (outcome: Phase<Session>)
    modifies store
    ensures reply.Failure? ==>
              outcome == Rejected(LoginErrorMessage(reply.error)) &&
              store.items == AfterFailure(old(store.items), reply.error)
    ensures reply.Success? ==> outcome.Fulfilled? && outcome.payload.token == reply.value.accessToken
    ensures reply.Success? && profileReply.Success? ==>
              outcome.payload.user == FetchProfileOutcome(profileReply).payload &&
              store.items == SessionWrites(old(store.items), reply.value.accessToken, reply.value.refreshToken)
                             [UserKey := UserRecord(outcome.payload.user)]
    ensures reply.Success? && profileReply.Failure? ==>
              outcome.payload.user == FallbackLoginUser(credentials.email) &&
              store.items == AfterFailure(SessionWrites(old(store.items), reply.value.accessToken,
                                                        reply.value.refreshToken), profileReply.error)
  {
    if reply.Failure? {
      var rejected := InterceptResponse(store, Failure(reply.error));
      return Rejected(LoginErrorMessage(reply.error));
    }
    var tokens := reply.value;
    store.SetItem(TokenKey, Text(tokens.accessToken));
    if Truthy(tokens.refreshToken) {
      store.SetItem(RefreshTokenKey, Text(tokens.refreshToken.value));
    }
    var profile := FetchProfileOutcome(profileReply);
    if profileReply.Failure? {
      var rejected := InterceptResponse(store, Failure(profileReply.error));
    }
    var user := FallbackLoginUser(credentials.email);
    if profile.Fulfilled? {
      user := profile.payload;
      store.SetItem(UserKey, UserRecord(user));
    }
    outcome := Fulfilled(Session(user, tokens.accessToken));
  }

  /**
   * The register thunk, given the server's reply to `POST /drivers/registrations`,
   * which passes the response interceptor.
   */
  method Register(store: SecureStore, request: RegistrationRequest, reply: Result<RegistrationReply, ApiError>)
    returns (outcome: Phase<Session>)
    modifies store
    ensures reply.Failure? ==>
              outcome == Rejected(RegisterErrorMessage(reply.error)) &&
              store.items == AfterFailure(old(store.items), reply.error)
    ensures reply.Success? ==>
              var user := if reply.value.driver.Some? then reply.value.driver.value else FallbackRegisteredUser(request);
              outcome == Fulfilled(Session(user, reply.value.accessToken)) &&
              store.items == SessionWrites(old(store.items), reply.value.accessToken, reply.value.refreshToken)
                             [UserKey := UserRecord(user)]
  {
    if reply.Failure? {
      var rejected := InterceptResponse(store, Failure(reply.error));
      return Rejected(RegisterErrorMessage(reply.error));
    }
    var r := reply.value;
    store.SetItem(TokenKey, Text(r.accessToken));
    if Truthy(r.refreshToken) {
      store.SetItem(RefreshTokenKey, Text(r.refreshToken.value));
    }
    var user := if r.driver.Some? then r.driver.value else FallbackRegisteredUser(request);
    store.SetItem(UserKey, UserRecord(user));
    outcome := Fulfilled(Session(user, r.accessToken));
  }

  /** The logout thunk: deletes `token` and `user`, in that order. */
  method Logout(store: SecureStore) returns (outcome: Phase<()>)
    modifies store
    ensures outcome == Fulfilled(())
    ensures store.items == LogoutWrites(old(store.items))
  {
    store.DeleteItem(TokenKey);
    store.DeleteItem(UserKey);
    outcome := Fulfilled(());
  }

  /**
   * The loadUser thunk at start-up, given the reply to the profile request
   * it makes when a token is stored. The token and the stored user are read
   * first; the profile request then passes the response interceptor, so a
   * 401 deletes the stored token although the session still carries it.
   */
  method LoadUser(store: SecureStore, profileReply: Result<User, ApiError>) returns (outcome: Phase<StoredSession>)
    modifies store
    ensures !Truthy(StoredToken(old(store.items))) ==>
              outcome == Rejected(NoUserFound) && store.items == old(store.items)
    ensures Truthy(StoredToken(old(store.items))) && profileReply.Failure? ==>
              var parsed := ParseStoredUser(Lookup(old(store.items), UserKey));
              store.items == AfterFailure(old(store.items), profileReply.error) &&
              outcome == if parsed.Failure? then Rejected(LoadUserFailed)
                         else Fulfilled(StoredSession(StoredToken(old(store.items)).value, parsed.value))
    ensures Truthy(StoredToken(old(store.items))) && profileReply.Success? ==>
              var parsed := ParseStoredUser(Lookup(old(store.items), UserKey));
              var profile := FetchProfileOutcome(profileReply).payload;
              if parsed.Failure? then
                outcome == Rejected(LoadUserFailed) && store.items == old(store.items)
              else
                outcome == Fulfilled(StoredSession(StoredToken(old(store.items)).value, Some(profile))) &&
                store.items == old(store.items)[UserKey := UserRecord(profile)]
  {
    var token := store.GetItem(TokenKey);
    var userStr := store.GetItem(UserKey);
    if !(token.Some? && token.value.Text? && token.value.text != "") {
      return Rejected(NoUserFound);
    }
    var profile := FetchProfileOutcome(profileReply);
    if profileReply.Failure? {
      var rejected := InterceptResponse(store, Failure(profileReply.error));
    }
    var parsed := ParseStoredUser(userStr);
    if parsed.Failure? {
      return Rejected(LoadUserFailed);
    }
    var user := parsed.value;
    if profile.Fulfilled? {
      user := Some(profile.payload);
      store.SetItem(UserKey, UserRecord(profile.payload));
    }
    outcome := Fulfilled(StoredSession(token.value.text, user));
  }

  /** `refresh_token` is written only when the reply carries a non-empty one; `token` always is. */
  lemma RefreshTokenStoredOnlyWhenIssued(items: map<string, StoredValue>, access: string, refresh: Option<string>)
    ensures StoredToken(SessionWrites(items, access, refresh)) == Some(access)
    ensures Truthy(refresh) ==> SessionWrites(items, access, refresh)[RefreshTokenKey] == Text(refresh.value)
    ensures !Truthy(refresh) ==> Lookup(SessionWrites(items, access, refresh), RefreshTokenKey) ==
                                 Lookup(items, RefreshTokenKey)
  {
  }

  /** Logout removes `token` and `user` and keeps `refresh_token` as it was. */
  lemma LogoutKeepsRefreshToken(items: map<string, StoredValue>)
    ensures TokenKey !in LogoutWrites(items) && UserKey !in LogoutWrites(items)
    ensures Lookup(LogoutWrites(items), RefreshTokenKey) == Lookup(items, RefreshTokenKey)
  {
  }

  /**
   * Login followed by logout does not leave storage free of credentials:
   * a refresh token the login stored is still there.
   */
  lemma LoginThenLogoutLeavesRefreshToken(items: map<string, StoredValue>, tokens: SessionTokens, user: User)
    requires Truthy(tokens.refreshToken)
    ensures var afterLogin := SessionWrites(items, tokens.accessToken, tokens.refreshToken)[UserKey := UserRecord(user)];
            var afterLogout := LogoutWrites(afterLogin);
            TokenKey !in afterLogout && UserKey !in afterLogout &&
            Lookup(afterLogout, RefreshTokenKey) == Some(Text(tokens.refreshToken.value))
  {
  }

  /**
   * A registration whose reply carries a non-empty access token leaves it
   * stored, so loadUser at the next start-up signs the driver in, although
   * the registration itself left the store signed out.
   */
  lemma RegisteredTokenSignsInAtNextStart(items: map<string, StoredValue>, reply: RegistrationReply, user: User)
    requires reply.accessToken != ""
    ensures var afterRegister := SessionWrites(items, reply.accessToken, reply.refreshToken)[UserKey := UserRecord(user)];
            Truthy(StoredToken(afterRegister)) &&
            ParseStoredUser(Lookup(afterRegister, UserKey)) == Success(Some(user))
  {
  }

  /** The actions the auth slice's reducer receives. */
  datatype AuthAction =
    | ClearErrorAction
    | LoginAction(loginPhase: Phase<Session>)
    | RegisterAction(registerPhase: Phase<Session>)
    | LogoutAction(logoutPhase: Phase<()>)
    | LoadUserAction(loadPhase: Phase<StoredSession>)
    | FetchProfileAction(profilePhase: Phase<User>)

  /** The auth slice's state as a value: the reference its reducers are proved against. */
  datatype AuthState = AuthState(user: Option<User>, token: Option<string>, isAuthenticated: bool,
                                 loading: bool, error: Option<string>, isInitialized: bool)

  /** The initial state: nobody signed in, loading, not yet initialised. */
  const InitialAuthState := AuthState(None, None, false, true, None, false)

  /** Signed in exactly when a token is held. */
  predicate SignedInIffToken(s: AuthState) {
    s.isAuthenticated <==> s.token.Some?
  }

  /** The slice's reducer, one case per `addCase` and the `clearError` reducer. */
  function Reduce(s: AuthState, a: AuthAction): AuthState {
    match a
    case ClearErrorAction => s.(error := None)
    case LoginAction(Pending) => s.(loading := true, error := None)
    case LoginAction(Fulfilled(session)) =>
      s.(loading := false, isAuthenticated := true, user := Some(session.user), token := Some(session.token))
    case LoginAction(Rejected(message)) => s.(loading := false, error := Some(message))
    case RegisterAction(Pending) => s.(loading := true, error := None)
    case RegisterAction(Fulfilled(_)) => s.(loading := false, isAuthenticated := false, user := None, token := None)
    case RegisterAction(Rejected(message)) => s.(loading := false, error := Some(message))
    case LogoutAction(Fulfilled(_)) => s.(user := None, token := None, isAuthenticated := false)
    case LogoutAction(_) => s
    case LoadUserAction(Pending) => s.(loading := true)
    case LoadUserAction(Fulfilled(session)) =>
      s.(loading := false, isAuthenticated := true, user := session.user, token := Some(session.token),
         isInitialized := true)
    case LoadUserAction(Rejected(_)) =>
      s.(loading := false, isAuthenticated := false, user := None, token := None, isInitialized := true)
    case FetchProfileAction(Fulfilled(profile)) => s.(user := Some(profile))
    case FetchProfileAction(_) => s
  }

  /** Every action keeps "signed in exactly when a token is held". */
  lemma ReduceKeepsSignedInIffToken(s: AuthState, a: AuthAction)
    requires SignedInIffToken(s)
    ensures SignedInIffToken(Reduce(s, a))
  {
  }

  /** Once initialised the store stays so, and a settled loadUser always initialises it. */
  lemma InitialisationIsFinal(s: AuthState, a: AuthAction)
    ensures s.isInitialized ==> Reduce(s, a).isInitialized
    ensures a.LoadUserAction? && !a.loadPhase.Pending? ==> Reduce(s, a).isInitialized && !Reduce(s, a).loading
  {
  }

  /**
   * A registration that succeeds leaves nobody signed in, whatever session
   * the reply carried and whoever was signed in before.
   */
  lemma RegistrationLeavesSignedOut(s: AuthState, session: Session)
    ensures var r := Reduce(s, RegisterAction(Fulfilled(session)));
            !r.isAuthenticated && r.user == None && r.token == None && !r.loading && r.error == s.error
  {
  }

  /** A failed login or registration keeps the session it found and records why. */
  lemma RejectionKeepsSession(s: AuthState, a: AuthAction, message: string)
    requires a == LoginAction(Rejected(message)) || a == RegisterAction(Rejected(message))
    ensures var r := Reduce(s, a);
            r.user == s.user && r.token == s.token && r.isAuthenticated == s.isAuthenticated &&
            !r.loading && r.error == Some(message)
  {
  }

  /** The pending and rejected outcomes of logout and fetchProfile have no case. */
  lemma UnhandledOutcomesChangeNothing(s: AuthState, a: AuthAction)
    requires (a.LogoutAction? && !a.logoutPhase.Fulfilled?) || (a.FetchProfileAction? && !a.profilePhase.Fulfilled?)
    ensures Reduce(s, a) == s
  {
  }

  /** The auth slice's state, updated in place by its reducers. */
  class AuthStore {
    var user: Option<User>
    var token: Option<string>
    var isAuthenticated: bool
    var loading: bool
    var error: Option<string>
    var isInitialized: bool

    /** The store's fields as a value. */
    function State(): AuthState
      reads this
    {
      AuthState(user, token, isAuthenticated, loading, error, isInitialized)
    }

    /** Signed in exactly when a token is held. */
    ghost predicate Valid()
      reads this
    {
      SignedInIffToken(State())
    }

    constructor ()
      ensures Valid() && State() == InitialAuthState
    {
      user := None;
      token := None;
      isAuthenticated := false;
      loading := true;
      error := None;
      isInitialized := false;
    }

    /** `clearError` */
    method ClearError()
      requires Valid()
      modifies this
      ensures Valid() && error == None
      ensures user == old(user) && token == old(token) && isAuthenticated == old(isAuthenticated)
      ensures loading == old(loading) && isInitialized == old(isInitialized)
    {
      error := None;
    }

    /** `login.pending` and `register.pending` */
    method StartRequest()
      requires Valid()
      modifies this
      ensures Valid() && loading && error == None
      ensures user == old(user) && token == old(token) && isAuthenticated == old(isAuthenticated)
      ensures isInitialized == old(isInitialized)
    {
      loading := true;
      error := None;
    }

    /** `login.rejected` and `register.rejected`: the session, if any, is kept. */
    method FailRequest(message: string)
      requires Valid()
      modifies this
      ensures Valid() && !loading && error == Some(message)
      ensures user == old(user) && token == old(token) && isAuthenticated == old(isAuthenticated)
      ensures isInitialized == old(isInitialized)
    {
      loading := false;
      error := Some(message);
    }

    /** `login.fulfilled` */
    method SignIn(session: Session)
      requires Valid()
      modifies this
      ensures Valid() && isAuthenticated && !loading
      ensures user == Some(session.user) && token == Some(session.token)
      ensures error == old(error) && isInitialized == old(isInitialized)
    {
      loading := false;
      isAuthenticated := true;
      user := Some(session.user);
      token := Some(session.token);
    }

    /** `register.fulfilled`: the new account is left signed out, whatever the reply held. */
    method FinishRegistration()
      requires Valid()
      modifies this
      ensures Valid() && !isAuthenticated && !loading
      ensures user == None && token == None
      ensures error == old(error) && isInitialized == old(isInitialized)
    {
      loading := false;
      isAuthenticated := false;
      user := None;
      token := None;
    }

    /** `logout.fulfilled` */
    method SignOut()
      requires Valid()
      modifies this
      ensures Valid() && !isAuthenticated && user == None && token == None
      ensures loading == old(loading) && error == old(error) && isInitialized == old(isInitialized)
    {
      user := None;
      token := None;
      isAuthenticated := false;
    }

    /** `loadUser.pending`: only `loading` changes; the error is not cleared. */
    method StartLoadUser()
      requires Valid()
      modifies this
      ensures Valid() && loading
      ensures user == old(user) && token == old(token) && isAuthenticated == old(isAuthenticated)
      ensures error == old(error) && isInitialized == old(isInitialized)
    {
      loading := true;
    }

    /** `loadUser.fulfilled`: the stored session is restored and start-up is over. */
    method RestoreSession(session: StoredSession)
      requires Valid()
      modifies this
      ensures Valid() && isAuthenticated && !loading && isInitialized
      ensures user == session.user && token == Some(session.token)
      ensures error == old(error)
    {
      loading := false;
      isAuthenticated := true;
      user := session.user;
      token := Some(session.token);
      isInitialized := true;
    }

    /** `loadUser.rejected`: start-up is over, signed out; no error is recorded. */
    method FailLoadUser()
      requires Valid()
      modifies this
      ensures Valid() && !isAuthenticated && !loading && isInitialized
      ensures user == None && token == None
      ensures error == old(error)
    {
      loading := false;
      isAuthenticated := false;
      user := None;
      token := None;
      isInitialized := true;
    }

    /** `fetchProfile.fulfilled`: only the user changes. */
    method SetProfile(profile: User)
      requires Valid()
      modifies this
      ensures Valid() && user == Some(profile)
      ensures token == old(token) && isAuthenticated == old(isAuthenticated)
      ensures loading == old(loading) && error == old(error) && isInitialized == old(isInitialized)
    {
      user := Some(profile);
    }

    /** The slice's reducer: the new state is the reference reducer's. */
    method Dispatch(a: AuthAction)
      requires Valid()
      modifies this
      ensures Valid() && State() == Reduce(old(State()), a)
    {
      match a {
        case ClearErrorAction =>
          ClearError();
        case LoginAction(phase) =>
          match phase {
            case Pending => StartRequest();
            case Fulfilled(session) => SignIn(session);
            case Rejected(message) => FailRequest(message);
          }
        case RegisterAction(phase) =>
          match phase {
            case Pending => StartRequest();
            case Fulfilled(_) => FinishRegistration();
            case Rejected(message) => FailRequest(message);
          }
        case LogoutAction(phase) =>
          if phase.Fulfilled? {
            SignOut();
          }
        case LoadUserAction(phase) =>
          match phase {
            case Pending => StartLoadUser();
            case Fulfilled(session) => RestoreSession(session);
            case Rejected(_) => FailLoadUser();
          }
        case FetchProfileAction(phase) =>
          if phase.Fulfilled? {
            SetProfile(phase.payload);
          }
      }
    }
  }
}
