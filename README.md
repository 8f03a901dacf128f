# LIYT Mobile driver app — state and decision core in Dafny

LIYT Mobile is a React Native app for delivery drivers. Its behaviour that
can be checked lives in two Redux slices, the HTTP client's two interceptors
and a handful of pure decisions in the screens. This project models those and
proves what they promise.

- **Deliveries slice** (`deliveries.dfy`). The class `DeliveriesStore` holds
  the driver's deliveries, the one on screen, a loading flag and an error.
  Each handled reducer case is a method that states the whole new state.
  `Dispatch` takes the outcome of one of the five async thunks
  (`Phase` = pending, fulfilled or rejected). It is proved to produce exactly
  the state that the pure reference reducer `Reduce` gives, and `Reduce` has
  one case per `addCase`. A fulfilled accept, pickup or complete writes the
  server's record back over the first list entry with the same id. The loop
  `FindIndexById` finds that entry, and the recursive reference function
  `WrittenBack` specifies the write-back.
- **Auth slice and credential effects** (`auth.dfy`, `storage.dfy`).
  - The class `AuthStore` models the auth reducers. Its `Dispatch` is proved
    against the reference reducer `Auth.Reduce`, whose invariant is "signed
    in exactly when a token is held".
  - The thunks `Login`, `Register`, `Logout` and `LoadUser` are methods over
    the class `SecureStore`. That class is a map from the keys `token`,
    `refresh_token` and `user` to stored values. The thunks take the
    server's replies as parameters, and their failed requests pass through
    the response interceptor.
  - The profile-name fallback and the two error-message chains are pure
    functions.
- **HTTP interceptors** (`api.dfy`). The request side sets
  `Authorization: Bearer <token>` when a non-empty token is stored. The
  response side deletes `token` on a 401 and hands every outcome back
  unchanged.
- **Screens** (`layout.dfy`, `login.dfy`, `register.dfy`, `settings.dfy`,
  `job_details.dfy`):
  - the root layout's start-up `loadUser` and its redirect guard;
  - the login screen's submit, and its clear-error-on-edit handler;
  - the registration submit guard and where it leads;
  - the settings screen's field fallbacks and avatar initial;
  - the job details lookup, and the trimming of the distance and time texts.
- **Helpers** (`wrappers.dfy`, `strings.dfy`, `types.dfy`):
  - `Option`, `Result` and the thunk `Phase`;
  - JavaScript truthiness and `||` chains (`Truthy`, `FirstTruthy`);
  - `indexOf`, `replace(pat, '')` and `split(sep)[0]`;
  - the records of `types/index.ts`.

Some behaviours of the code as written are worth stating:

- A 401 only deletes `token`. Nothing refreshes the token or retries the request.
- Nothing maps a delivery's status to the next action the driver may take.
  Nothing stops a transition from being sent twice.
- The "Accept Job" button on the job details screen only logs and navigates back.
- Logout deletes `token` and `user` and keeps `refresh_token`.
  `Auth.LogoutKeepsRefreshToken` and `Auth.LoginThenLogoutLeavesRefreshToken`
  state this.
- Login and loadUser both request the profile after the token is known. A 401
  on that request deletes the stored token. Login still fulfils with that
  token, and so does loadUser when the stored user is readable. The store is
  then signed in while storage holds no token.
  `LoginScreen.SubmitLogin` and `RootLayout.StartUp` state this.

## Model

| member | source | states |
|---|---|---|
| Strings.FirstTruthy | app/settings.tsx:48-52 | an `a \|\| b \|\| fallback` chain yields the first non-empty candidate, the fallback when none is non-empty, and never the empty string when the fallback is not |
| Strings.IndexOf | app/job-details.tsx:49 | the position of the first occurrence of the pattern, or none when it does not occur |
| Strings.BeforeFirst | app/job-details.tsx:49 | `split(sep)[0]` is a prefix that contains no separator and ends at the first separator or at the end of the text |
| Strings.RemoveFirst | app/job-details.tsx:54 | `replace(pat, '')` cuts out only the first occurrence and leaves text without one unchanged |
| Storage.SecureStore.SetItem | store/slices/authSlice.ts:63-64 | writing a key changes that key only |
| Storage.SecureStore.DeleteItem | store/slices/authSlice.ts:145-146 | deleting a key removes that key only |
| Api.RequestConfig.constructor | services/api.ts:7-13 | every request starts with JSON Content-Type and Accept headers |
| Api.AttachBearer | services/api.ts:18-29 | the request interceptor sets the headers to the bearer-augmented headers for the stored token, leaves method and url alone, and returns the same config |
| Api.InterceptResponse | services/api.ts:32-41 | every outcome is handed back unchanged; a success leaves storage alone; a failure leaves storage as the 401 rule says |
| Api.WithBearer | services/api.ts:21-23 | a non-empty token sets `Authorization` to `Bearer <token>`; an absent or empty one leaves the headers as they were; every other header keeps its presence and value |
| Api.AfterFailure | services/api.ts:35-38 | a failure whose response has status 401 removes `token`; any other failure, including one without a response, leaves storage as it was; every other key keeps its presence and value |
| Api.NextRequestAfterUnauthorizedIsAnonymous | services/api.ts:18-41 | after a 401 no token is stored, so the next request goes out without a bearer header |
| Deliveries.ThunkOutcome | store/slices/deliveriesSlice.ts:12-70 | a thunk fulfils exactly when the request succeeded, with the server's data unchanged; otherwise it rejects with the server's non-empty message, or else with that thunk's fallback text |
| Deliveries.TransitionPath | store/slices/deliveriesSlice.ts:40-64 | the path of a transition lies under `/drivers/deliveries/<id>/` and reads back as exactly that transition and that id |
| Deliveries.TransitionRequest | store/slices/deliveriesSlice.ts:40-64 | a transition is a PATCH whose path reads back as that transition and that id |
| Deliveries.TransitionFallback | store/slices/deliveriesSlice.ts:43-67 | the fallback message of each transition begins with "Failed to " |
| Deliveries.TransitionPathParsesBack | store/slices/deliveriesSlice.ts:40-64 | `/drivers/deliveries/<id>/accept`, `/pickup` or `/complete` determines both the transition and the id |
| Deliveries.ReadsAreGetsTransitionsArePatches | store/slices/deliveriesSlice.ts:16-64 | the list and detail fetches are GETs, the list on `/drivers/deliveries`; transitions are PATCHes below the path of the delivery they change |
| Deliveries.WrittenBackReplacesFirstMatch | store/slices/deliveriesSlice.ts:116-119 | with a first match at index i, the write-back equals the list with only entry i replaced by the payload |
| Deliveries.WrittenBackWithoutMatch | store/slices/deliveriesSlice.ts:117 | without a matching id the list is unchanged |
| Deliveries.WrittenBackOnlyFromPayload | store/slices/deliveriesSlice.ts:116-119 | the write-back keeps the length and brings in no record other than the payload |
| Deliveries.FindIndexById | store/slices/deliveriesSlice.ts:116 | `findIndex` yields the first index with the id, or -1 when no entry has it |
| Deliveries.PickupAndCompleteLeaveRequestFlags | store/slices/deliveriesSlice.ts:125-138 | pickup and complete never change loading or error, and their pending and rejected outcomes change nothing |
| Deliveries.RejectionsKeepRecords | store/slices/deliveriesSlice.ts:93-124 | no rejection changes the list or the delivery on screen; each rejection that has a case ends loading and records its message |
| Deliveries.RecordsComeFromServer | store/slices/deliveriesSlice.ts:83-139 | every record listed or on screen after an action was there before or came in that action's payload |
| Deliveries.DeliveriesStore.constructor | store/slices/deliveriesSlice.ts:5-10 | the initial state: empty list, nothing on screen, not loading, no error |
| Deliveries.DeliveriesStore.ClearCurrentDelivery | store/slices/deliveriesSlice.ts:76-78 | only `currentDelivery` changes, to null |
| Deliveries.DeliveriesStore.ClearError | store/slices/deliveriesSlice.ts:79-81 | only `error` changes, to null |
| Deliveries.DeliveriesStore.StartRequest | store/slices/deliveriesSlice.ts:85-88 | pending fetch-list, fetch-by-id and accept set loading and clear the error; list and current delivery are untouched |
| Deliveries.DeliveriesStore.FailRequest | store/slices/deliveriesSlice.ts:93-96 | rejected fetch-list, fetch-by-id and accept clear loading and set the error to the message; list and current delivery are untouched |
| Deliveries.DeliveriesStore.ReceiveDeliveries | store/slices/deliveriesSlice.ts:89-92 | the list becomes the payload and loading ends; the rest is untouched |
| Deliveries.DeliveriesStore.ReceiveDelivery | store/slices/deliveriesSlice.ts:101-104 | the payload goes on screen and loading ends; the list is untouched |
| Deliveries.DeliveriesStore.ReceiveTransitionResult | store/slices/deliveriesSlice.ts:125-137 | fulfilled pickup and complete put the payload on screen and write it back over the first entry with its id; loading and error are untouched |
| Deliveries.DeliveriesStore.ReceiveAccepted | store/slices/deliveriesSlice.ts:113-120 | fulfilled accept does the same write-back and also ends loading |
| Deliveries.DeliveriesStore.Dispatch | store/slices/deliveriesSlice.ts:83-139 | the new state is exactly the reference reducer's result for the old state and the action: each thunk outcome reaches its own case, and outcomes without a case change nothing |
| Deliveries.TransitionOutcomeIsServerRecord | store/slices/deliveriesSlice.ts:36-70 | a fulfilled transition carries the server's record unchanged, so no status is set by the client |
| Deliveries.RejectionsAreNeverSilent | store/slices/deliveriesSlice.ts:12-70 | every rejection of the five thunks carries a non-empty message |
| Deliveries.PickupScenario | store/slices/deliveriesSlice.ts:48-58 | marking delivery 42 picked up sends `PATCH /drivers/deliveries/42/pickup`, and the server's record replaces the listed one |
| Auth.ProfileName | store/slices/authSlice.ts:44 | the name is full_name, else name, else the email before its first '@', else 'Driver', taking each only when non-empty; it is never empty |
| Auth.EmailLocalPart | store/slices/authSlice.ts:44 | present exactly when the email is; a prefix of the email that contains no '@' and ends at its first '@' or at its end |
| Auth.ProfileNameFromEmail | store/slices/authSlice.ts:44 | without either name, and with a non-empty text before the email's first '@', the name is that text |
| Auth.FetchProfileOutcome | store/slices/authSlice.ts:34-50 | a fetched profile is returned with only `name` replaced by the fallback name; a failure rejects with a non-empty message |
| Auth.LoginErrorMessage | store/slices/authSlice.ts:83-88 | the login rejection is the first non-empty of data.message, data.error, a text body and the error's message, else 'Login failed' |
| Auth.RegisterErrorMessage | store/slices/authSlice.ts:129-136 | the same chain with the validation `errors` text third, else 'Registration failed' |
| Auth.FallbackLoginUser | store/slices/authSlice.ts:68-74 | the fallback login user has id 'unknown', the typed email, an empty phone, and the name 'Driver' |
| Auth.FallbackRegisteredUser | store/slices/authSlice.ts:118-124 | the fallback registered user has id 'new', the form's email and phone, and the form's full name as its name when that is non-empty |
| Auth.ParseStoredUser | store/slices/authSlice.ts:157 | a missing or empty stored user reads as null, and a stored profile as itself; any other text fails, with 'Failed to load user' |
| Auth.Login | store/slices/authSlice.ts:52-94 | a failed login rejects with the chain's message and changes storage only as the 401 rule says; a successful one stores the token, and the refresh token only when one came; it stores and returns the fetched profile when that request succeeds, and otherwise returns the fallback user with the typed email, a 401 on the profile request deleting the token just stored |
| Auth.Register | store/slices/authSlice.ts:96-142 | a failed registration changes storage only as the 401 rule says; a successful one stores the tokens and the reply's driver, or a user built from the form |
| Auth.Logout | store/slices/authSlice.ts:144-147 | logout deletes `token` and `user`, and nothing else |
| Auth.LoadUser | store/slices/authSlice.ts:149-170 | with no non-empty stored token it rejects with 'No user found' and writes nothing; otherwise a 401 on the profile request deletes `token`; an unreadable stored user then rejects with 'Failed to load user'; else it fulfils with the stored token and the fetched profile (stored too), or else the stored user, or else null |
| Auth.RefreshTokenStoredOnlyWhenIssued | store/slices/authSlice.ts:63-64 | the access token is always stored, and `refresh_token` changes only when the reply carries a non-empty one |
| Auth.LogoutKeepsRefreshToken | store/slices/authSlice.ts:144-147 | after logout neither `token` nor `user` is stored, and `refresh_token` is as before |
| Auth.LoginThenLogoutLeavesRefreshToken | store/slices/authSlice.ts:52-147 | after a login that issued a refresh token and then a logout, that refresh token is still stored |
| Auth.RegisteredTokenSignsInAtNextStart | store/slices/authSlice.ts:115-125 | after a registration whose reply carries a non-empty access token, that token and the user are stored as the next start-up's loadUser reads them, although the store itself stays signed out |
| Auth.ReduceKeepsSignedInIffToken | store/slices/authSlice.ts:175-243 | every action keeps "signed in exactly when a token is held" |
| Auth.InitialisationIsFinal | store/slices/authSlice.ts:221-237 | nothing un-initialises the store, and a settled loadUser leaves it initialised and not loading |
| Auth.RegistrationLeavesSignedOut | store/slices/authSlice.ts:202-207 | a successful registration leaves nobody signed in, with no user and no token, whatever the reply held and whoever was signed in before |
| Auth.RejectionKeepsSession | store/slices/authSlice.ts:192-210 | a failed login or registration keeps the session it found, ends loading and records the message |
| Auth.UnhandledOutcomesChangeNothing | store/slices/authSlice.ts:214-242 | pending and rejected logout and fetchProfile change nothing |
| Auth.AuthStore.constructor | store/slices/authSlice.ts:24-31 | the initial state: no user or token, signed out, loading, no error, not initialised; it keeps the invariant |
| Auth.AuthStore.ClearError | store/slices/authSlice.ts:176-178 | only `error` changes, to null |
| Auth.AuthStore.StartRequest | store/slices/authSlice.ts:182-185 | pending login and register set loading and clear the error |
| Auth.AuthStore.FailRequest | store/slices/authSlice.ts:192-195 | rejected login and register clear loading and set the error, keeping any session |
| Auth.AuthStore.SignIn | store/slices/authSlice.ts:186-191 | fulfilled login signs in with the payload's user and token and ends loading |
| Auth.AuthStore.FinishRegistration | store/slices/authSlice.ts:202-207 | fulfilled register leaves the store signed out with no user and no token |
| Auth.AuthStore.SignOut | store/slices/authSlice.ts:214-218 | fulfilled logout clears user and token and signs out, leaving loading and error |
| Auth.AuthStore.StartLoadUser | store/slices/authSlice.ts:221-223 | pending loadUser sets loading only |
| Auth.AuthStore.RestoreSession | store/slices/authSlice.ts:224-230 | fulfilled loadUser signs in with the restored session and marks the store initialised |
| Auth.AuthStore.FailLoadUser | store/slices/authSlice.ts:231-237 | rejected loadUser signs out and marks the store initialised, recording no error |
| Auth.AuthStore.SetProfile | store/slices/authSlice.ts:240-242 | a fetched profile replaces the user only |
| Auth.AuthStore.Dispatch | store/slices/authSlice.ts:175-243 | the new state is exactly the reference reducer's result for the old state and the action, and "signed in exactly when a token is held" still holds |
| RootLayout.AuthRedirect | app/_layout.tsx:33-45 | before initialisation there is no redirect; afterwards there is one exactly when the signed-in flag equals "first segment is auth", to the tabs when signed in and to the login screen otherwise |
| RootLayout.GuardKeepsDriversWhereTheyBelong | app/_layout.tsx:36-44 | once initialised, a driver stays put exactly when signed-in and in-auth-group differ, and is sent to login or to the tabs in the other two cases |
| RootLayout.RedirectSettles | app/_layout.tsx:33-45 | the route a redirect leads to is one the guard accepts, so redirects do not loop |
| RootLayout.StartUp | app/_layout.tsx:28-31 | the start-up `dispatch(loadUser())`, running the thunk of store/slices/authSlice.ts:149-170: start-up ends initialised and not loading, signed in exactly when a non-empty token and a readable user were stored, and then with that token; after a 401 on the profile request the store holds a token that storage no longer has; from the initial route '(tabs)' (app/_layout.tsx:17-19) the guard then leaves a signed-in driver where they are and sends a signed-out one to login |
| LoginScreen.HandleLogin | app/auth/login.tsx:19-22 | a request is sent exactly when email and password are both non-empty, and it carries exactly those two values |
| LoginScreen.SubmitLogin | app/auth/login.tsx:19-22 | nothing happens while a field is empty; a failed login keeps the session and shows the chain's message; a successful one signs in with the reply's token and no error; after a 401 on the profile request the driver is signed in while storage holds no token; when the profile request fails, the signed-in user is the fallback user carrying the typed email |
| LoginScreen.EditField | app/auth/login.tsx:63-66 | clearError is dispatched exactly when a non-empty error is shown, and then only the error changes |
| LoginScreen.TypedEmailReachesFallbackUser | app/auth/login.tsx:22 | the credentials sent carry the typed email, and the fallback user built from them carries it too |
| RegisterScreen.HandleRegister | app/auth/register.tsx:24-41 | a request is sent exactly when email, password, full name and phone are non-empty and the passwords match, and it carries the six form values unchanged |
| RegisterScreen.AfterRegister | app/auth/register.tsx:42-46 | the screen navigates exactly when registration succeeded, and then to `/auth/login` |
| RegisterScreen.UntouchedFormSendsNothing | app/auth/register.tsx:11-28 | the form starts with vehicle type 'car', and submitting it untouched sends nothing |
| RegisterScreen.OptionalFieldsNotValidated | app/auth/register.tsx:25-32 | licence number and vehicle type do not decide whether a request is sent |
| RegisterScreen.RegistrationEndsOnLoginScreen | app/auth/register.tsx:42-46 | a successful registration leads to the login screen, where the guard, seeing a signed-out driver, leaves them |
| SettingsScreen.ViewProfile | app/settings.tsx:48-52 | each shown field is the user's non-empty value or its fallback text ('No email', 'No phone', 'Not set', 'active'), and no field is empty |
| SettingsScreen.AvatarInitial | app/settings.tsx:82 | `charAt(0)` is the first character, or empty for an empty name |
| SettingsScreen.DisplayNamePrecedence | app/settings.tsx:48 | the shown name is full_name, else name, else 'Driver' |
| SettingsScreen.NoUserShowsDefaults | app/settings.tsx:48-52 | with no user every field shows its fallback |
| SettingsScreen.AvatarIsFirstLetterOfName | app/settings.tsx:82 | the avatar shows exactly one character, the first of the shown name |
| SettingsScreen.FetchedProfileNameIsShown | app/settings.tsx:48 | for a profile from fetchProfile, the screen's shorter chain shows the name fetchProfile computed |
| JobDetails.FindJobIndex | app/job-details.tsx:13 | `find` yields the first job with the id, or none when no job has it |
| JobDetails.JobToShow | app/job-details.tsx:13 | a job is shown exactly when the list is non-empty, and it is one of the listed jobs |
| JobDetails.ShowsFirstMatchingJob | app/job-details.tsx:13 | the shown job is the first with the route's id |
| JobDetails.ShowsFirstJobWithoutMatch | app/job-details.tsx:13 | without a match, the first job is shown |
| JobDetails.DistanceFigure | app/job-details.tsx:49 | the distance figure is a prefix of the distance text without spaces, ending at its first space or at its end |
| JobDetails.MinutesFigure | app/job-details.tsx:54 | a time text with neither '~' nor ' min' is shown unchanged, and at most five characters are ever removed |
| JobDetails.RemoveLeadingTilde | app/job-details.tsx:54 | removing '~' from a text that starts with it drops exactly that character |
| JobDetails.RemoveMinutesUnit | app/job-details.tsx:54 | removing " min" from "<figure> min", for a figure without spaces, leaves the figure |
| JobDetails.MinutesOfApproximateTime | app/job-details.tsx:54 | "~<figure> min" shows as the figure, for any figure without spaces |
| JobDetails.DistanceExample | app/job-details.tsx:49 | "5.2 miles" shows as "5.2" |
| JobDetails.MinutesExample | app/job-details.tsx:54 | "~15 min" shows as "15" |

## Left out

- Transport: axios, the base URL and the network are not modelled. Server replies are parameters of the thunks, and the requests are modelled by their method and path.
- JSON: `JSON.stringify` and `JSON.parse` of the stored user are not modelled. A stored profile is a `UserRecord` value, and a non-empty text under `user` stands for text that fails to parse. The `errors` list is taken as its already-stringified text.
- Storage failures: exceptions thrown by secure storage, and the catch paths they would reach, are not modelled.
- Delivery sub-records: the nested stop, business, customer, item and address records of a delivery are carried without being inspected, so they are left out of `Delivery`.
- User fields: `rating`, `verified_at` and `avatar` of a user are never read by the modelled code, so they are left out of `User`.
- Floating point: prices are `real`, and `toFixed` formatting is not modelled.
- User id: the profile's numeric id alternative is left out; ids are strings.
- Async composition: interleaving of concurrent thunks is not modelled; each reducer case is one atomic step. The nested `fetchProfile` dispatches inside login and loadUser are modelled only in `LoginScreen.SubmitLogin` and `RootLayout.StartUp`, which dispatch them before the thunk's own storage effects rather than between them; the reducers never read storage, so the final state is the same.
- Interceptors around delivery requests: the deliveries thunks are modelled without secure storage, so the deletion of `token` after a 401 on a delivery request is stated only by `Api.InterceptResponse`. The thunks do not carry request headers, so the request interceptor is stated only by `Api.AttachBearer`.
- SettingsScreen.AvatarInitial: JavaScript's `charAt(0)` returns the first UTF-16 code unit, while a Dafny `char` is a whole Unicode scalar value. For a name that starts with a character outside the Basic Multilingual Plane, the app shows half of a surrogate pair where the model shows the whole character.
- Timers and logging: `mockApiCall` (unused, timer-driven), `console.log` and `console.error` are not modelled.
- Navigation: the effects of `router.push`, `router.replace` and `router.back`, and the alert after registering, are not modelled. The guard and the register screen return the route they navigate to.
- Accept Job button: on the job details screen it only logs and navigates back, so it changes no state and there is nothing to model.
- Rendering: JSX, styles, icons and theme constants are not modelled.
