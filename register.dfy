/**
 * The registration screen's logic (app/auth/register.tsx): the form's
 * initial values, the submit guard, the request it builds, and where a
 * successful registration leads.
 */
module RegisterScreen {
  import opened Wrappers
  import opened Auth
  import opened RootLayout

  /** The seven form fields. */
  datatype RegisterForm = RegisterForm(
    fullName: string,
    email: string,
    phone: string,
    vehicleType: string,
    licenseNumber: string,
    password: string,
    confirmPassword: string)

  /** Every field starts empty except the vehicle type, which starts as 'car'. */
  const InitialForm := RegisterForm("", "", "", "car", "", "", "")

  /** `handleRegister`: the request it dispatches register with, or None when it returns early. */
  function HandleRegister(f: RegisterForm): (r: Option<RegistrationRequest>)
    ensures r.Some? <==> f.email != "" && f.password != "" && f.fullName != "" && f.phone != "" &&
                         f.password == f.confirmPassword
    ensures r.Some? ==> r.value == RegistrationRequest(f.email, f.password, f.fullName, f.phone,
                                                       f.vehicleType, f.licenseNumber)
  {
    if f.email == "" || f.password == "" || f.fullName == "" || f.phone == "" then None
    else if f.password != f.confirmPassword then None
    else Some(RegistrationRequest(f.email, f.password, f.fullName, f.phone, f.vehicleType, f.licenseNumber))
  }

  /** Where the screen navigates once the register thunk has settled: to login only on success. */
  function AfterRegister(outcome: Phase<Session>): (r: Option<Route>)
    ensures r.Some? <==> outcome.Fulfilled?
    ensures r.Some? ==> r.value == LoginRoute && RoutePath(r.value) == "/auth/login"
  {
    if outcome.Fulfilled? then Some(LoginRoute) else None
  }

  /** Submitting the untouched form sends nothing. */
  lemma UntouchedFormSendsNothing()
    ensures HandleRegister(InitialForm) == None
    ensures InitialForm.vehicleType == "car"
  {
  }

  /** Licence number and vehicle type are never validated: they do not decide whether a request is sent. */
  lemma OptionalFieldsNotValidated(f: RegisterForm, licenseNumber: string, vehicleType: string)
    ensures HandleRegister(f.(licenseNumber := licenseNumber, vehicleType := vehicleType)).Some? ==
            HandleRegister(f).Some?
  {
  }

  /**
   * A successful registration ends on the login screen, signed out, and the
   * route guard keeps the driver there rather than sending them to the tabs.
   */
  lemma RegistrationEndsOnLoginScreen(session: Session)
    ensures AfterRegister(Fulfilled(session)) == Some(LoginRoute)
    ensures AuthRedirect(true, false, RouteSegments(LoginRoute)) == None
  {
  }
}
