/**
 * Signing up and signing in on the two front ends: the registration form,
 * the duplicate-email check against the fetched users, the create request,
 * the error shown when a request fails, and the mobile sign-in by email.
 * Each request's answer is an argument; the handler's visible effect (the
 * alert or error text, the session login and the next route) is its result.
 */
module Accounts {
  import opened Wrappers
  import opened Js
  import opened Session
  import opened Sequences

  datatype Field = Email | Password | FirstName | LastName | University

  datatype Form = Form(email: string, password: string, firstName: string, lastName: string, university: string)

  const EmptyForm := Form("", "", "", "", "")

  function Get(form: Form, field: Field): string {
    match field
    case Email => form.email
    case Password => form.password
    case FirstName => form.firstName
    case LastName => form.lastName
    case University => form.university
  }

  /** `handleChange`: the named field takes the value. */
  function WithField(form: Form, field: Field, value: string): (r: Form)
    ensures Get(r, field) == value
    ensures forall other :: other != field ==> Get(r, other) == Get(form, other)
  {
    match field
    case Email => form.(email := value)
    case Password => form.(password := value)
    case FirstName => form.(firstName := value)
    case LastName => form.(lastName := value)
    case University => form.(university := value)
  }

  /** The body of the create-user request: the form plus `passwordHash`, the password as typed. */
  datatype CreateRequest = CreateRequest(email: string, password: string, firstName: string, lastName: string,
                                         university: string, passwordHash: string)

  function CreateRequestFor(form: Form): (r: CreateRequest)
    ensures r.passwordHash == r.password == form.password
    ensures r.email == form.email && r.firstName == form.firstName && r.lastName == form.lastName
    ensures r.university == form.university
  {
    CreateRequest(form.email, form.password, form.firstName, form.lastName, form.university, form.password)
  }

  /** A failed request as the HTTP client reports it. */
  datatype Response = Response(dataMessage: JsStr, statusText: JsStr, status: int)
  datatype ApiError = ApiError(message: JsStr, code: JsStr, response: Option<Response>)

  /** The text an alert or error line shows. */
  datatype Message =
    | Text(text: string)
    | CannotConnect              // the troubleshooting text with the attempted URL
    | ServerError(status: int)   // "Server error: <status>"

  /** `users.some(u => u.email === email)`: an exact, case-sensitive match. */
  predicate EmailTaken(users: seq<SessionUser>, email: string) {
    exists u :: u in users && u.email == Some(email)
  }

  /** The mobile registration error: no response or a network code means the server is unreachable. */
  function RegistrationError(e: ApiError): (m: Message)
    ensures m == CannotConnect <==>
      e.message == Some("Network Error") || e.code == Some("ECONNREFUSED") || e.code == Some("ERR_NETWORK")
      || e.response.None?
    ensures m.ServerError? ==>
      (e.response.Some? && !StrTruthy(e.response.value.dataMessage)
       && !StrTruthy(e.response.value.statusText) && m.status == e.response.value.status)
  {
    if e.message == Some("Network Error") || e.code == Some("ECONNREFUSED") || e.code == Some("ERR_NETWORK")
       || e.response.None? then CannotConnect
    else if StrTruthy(e.response.value.dataMessage) then Text(e.response.value.dataMessage.value)
    else if StrTruthy(e.response.value.statusText) then Text(e.response.value.statusText.value)
    else ServerError(e.response.value.status)
  }

  /** What a handler ends with: an alert (or error line), or a login followed by navigation. */
  datatype Outcome =
    | Alert(message: Message)
    | LoggedIn(user: SessionUser, route: string)

  const ProfileRoute := "/(tabs)/profile"
  const DiscoverRoute := "/(tabs)/discover"
  /** The web page the registration form goes to once the new user is logged in. */
  const WebProfileRoute := "/profile"

  /** The mobile registration screen. */
  class MobileRegisterScreen {
    var form: Form
    var loading: bool

    constructor()
      ensures form == EmptyForm && !loading
    {
      form := EmptyForm;
      loading := false;
    }

    method HandleChange(field: Field, value: string)
      modifies this
      ensures form == WithField(old(form), field, value) && loading == old(loading)
    {
      form := WithField(form, field, value);
    }

    /**
     * `handleRegister`: with an empty field nothing is requested; a taken email creates
     * nothing; otherwise the create request is sent (`sent`) and its answer decides.
     */
    method HandleRegister(users: Result<seq<SessionUser>, ApiError>, created: Result<SessionUser, ApiError>)
      returns (outcome: Outcome, sent: Option<CreateRequest>)
      modifies this
      ensures form == old(form) && loading == (MissingField(old(form)) && old(loading))
      ensures MissingField(old(form)) ==> outcome == Alert(Text("Please fill in all fields")) && sent.None?
      ensures !MissingField(old(form)) && users.Err? ==> outcome == Alert(RegistrationError(users.error)) && sent.None?
      ensures !MissingField(old(form)) && users.Ok? && EmailTaken(users.value, old(form).email) ==>
        outcome == Alert(Text("Email already registered")) && sent.None?
      ensures !MissingField(old(form)) && users.Ok? && !EmailTaken(users.value, old(form).email) ==>
        sent == Some(CreateRequestFor(old(form)))
        && outcome == (if created.Ok? then LoggedIn(created.value, ProfileRoute) else Alert(RegistrationError(created.error)))
    {
      sent := None;
      if MissingField(form) {
        outcome := Alert(Text("Please fill in all fields"));
        return;
      }
      loading := true;
      if users.Err? {
        outcome := Alert(RegistrationError(users.error));
      } else if exists u :: u in users.value && u.email == Some(form.email) {
        outcome := Alert(Text("Email already registered"));
        loading := false;
      } else {
        sent := Some(CreateRequestFor(form));
        if created.Err? {
          outcome := Alert(RegistrationError(created.error));
        } else {
          outcome := LoggedIn(created.value, ProfileRoute);
        }
      }
      loading := false;
    }
  }

  predicate MissingField(form: Form) {
    form.email == "" || form.password == "" || form.firstName == "" || form.lastName == "" || form.university == ""
  }

  /** The web registration page; the browser's `required` check on the inputs is not part of it. */
  class WebRegisterPage {
    var form: Form
    var error: string
    var loading: bool

    constructor()
      ensures form == EmptyForm && error == "" && !loading
    {
      form := EmptyForm;
      error := "";
      loading := false;
    }

    method HandleChange(field: Field, value: string)
      modifies this
      ensures form == WithField(old(form), field, value) && error == old(error) && loading == old(loading)
    {
      form := WithField(form, field, value);
    }

    /**
     * `handleSubmit`: the error line is cleared first; a taken email sets it and creates
     * nothing; a failed request shows its message or the fallback text. `loggedIn` is the
     * user handed to the session's login, and `route` the page navigated to after it.
     */
    method HandleSubmit(users: Result<seq<SessionUser>, ApiError>, created: Result<SessionUser, ApiError>)
      returns (loggedIn: Option<SessionUser>, sent: Option<CreateRequest>, route: Option<string>)
      modifies this
      ensures form == old(form) && !loading
      ensures route == if loggedIn.Some? then Some(WebProfileRoute) else None
      ensures users.Err? ==> loggedIn.None? && sent.None? && error == WebFailure(users.error)
      ensures users.Ok? && EmailTaken(users.value, old(form).email) ==>
        loggedIn.None? && sent.None? && error == "Email already registered"
      ensures users.Ok? && !EmailTaken(users.value, old(form).email) ==>
        sent == Some(CreateRequestFor(old(form)))
        && (created.Ok? ==> loggedIn == Some(created.value) && error == "")
        && (created.Err? ==> loggedIn.None? && error == WebFailure(created.error))
    {
      error := "";
      loading := true;
      loggedIn, sent, route := None, None, None;
      if users.Err? {
        error := WebFailure(users.error);
      } else if exists u :: u in users.value && u.email == Some(form.email) {
        error := "Email already registered";
        loading := false;
      } else {
        sent := Some(CreateRequestFor(form));
        if created.Err? {
          error := WebFailure(created.error);
        } else {
          loggedIn := Some(created.value);
          route := Some(WebProfileRoute);
        }
      }
      loading := false;
    }
  }

  /** `err.message || 'Registration failed. Please try again.'`. */
  function WebFailure(e: ApiError): (text: string)
    ensures text != ""
    ensures StrTruthy(e.message) ==> text == e.message.value
  {
    StrOr(e.message, "Registration failed. Please try again.")
  }

  /** The first fetched user whose email is exactly the typed one. */
  function UserWithEmail(users: seq<SessionUser>, email: string): Option<SessionUser> {
    FindFirst(users, (u: SessionUser) => u.email == Some(email))
  }

  /** The mobile sign-in screen. */
  class MobileLoginScreen {
    var email: string
    var password: string
    var loading: bool

    constructor()
      ensures email == "" && password == "" && !loading
    {
      email, password := "", "";
      loading := false;
    }

    method SetEmail(value: string)
      modifies this
      ensures email == value && password == old(password) && loading == old(loading)
    {
      email := value;
    }

    method SetPassword(value: string)
      modifies this
      ensures password == value && email == old(email) && loading == old(loading)
    {
      password := value;
    }

    /**
     * `handleLogin`: both fields are required; the user is the first with exactly that
     * email; the password is not checked.
     */
    method HandleLogin(users: Result<seq<SessionUser>, ApiError>) returns (outcome: Outcome)
      modifies this
      ensures email == old(email) && password == old(password)
      ensures loading == ((old(email) == "" || old(password) == "") && old(loading))
      ensures outcome == LoginOutcome(old(email), old(password), users)
    {
      if email == "" || password == "" {
        return Alert(Text("Please fill in all fields"));
      }
      loading := true;
      if users.Err? {
        outcome := Alert(Text(StrOr(users.error.message, "Login failed")));
      } else {
        var user := UserWithEmail(users.value, email);
        if user.None? {
          outcome := Alert(Text("Invalid email or password"));
        } else {
          outcome := LoggedIn(user.value, DiscoverRoute);
        }
      }
      loading := false;
    }
  }

  function LoginOutcome(email: string, password: string, users: Result<seq<SessionUser>, ApiError>): Outcome {
    if email == "" || password == "" then Alert(Text("Please fill in all fields"))
    else if users.Err? then Alert(Text(StrOr(users.error.message, "Login failed")))
    else
      match UserWithEmail(users.value, email)
      case None => Alert(Text("Invalid email or password"))
      case Some(u) => LoggedIn(u, DiscoverRoute)
  }

  /**
   * Sign-in succeeds exactly when both fields are filled and some fetched user has that
   * email, and then logs in the first such user; any two non-empty passwords give the same
   * outcome.
   */
  lemma LoginSpec(email: string, password: string, other: string, users: Result<seq<SessionUser>, ApiError>)
    requires password != "" && other != ""
    ensures LoginOutcome(email, password, users).LoggedIn? <==>
      email != "" && users.Ok? && EmailTaken(users.value, email)
    ensures LoginOutcome(email, password, users).LoggedIn? ==>
      var u := LoginOutcome(email, password, users).user;
      u in users.value && u.email == Some(email)
      && (exists k :: 0 <= k < |users.value| && users.value[k] == u
                   && forall j :: 0 <= j < k ==> users.value[j].email != Some(email))
    ensures LoginOutcome(email, password, users) == LoginOutcome(email, other, users)
  {
    if email != "" && users.Ok? && EmailTaken(users.value, email) {
      var u :| u in users.value && u.email == Some(email);
      var i :| 0 <= i < |users.value| && users.value[i] == u;
      FindFirstIsFirst(users.value, (u: SessionUser) => u.email == Some(email));
    }
  }
}
