/**
 * The sign-in page of the web client: its zod schema, the single warning it shows for invalid
 * input, and the submit handler that authenticates, records the session and moves to "/job".
 */
module SignIn {
  import opened Wrappers
  import opened Strings
  import opened Validation
  import opened AuthContext
  import SessionsController

  const EmailRequiredMessage :=
    "Ops! Parece que você esqueceu de inserir seu e-mail. Por favor, preencha esse campo para prosseguir com o login."
  const EmailTooShortMessage :=
    "Ops! Para prosseguir com o login, o campo \"e-mail\" deve conter no mínimo 6 caracteres."
  const EmailInvalidMessage :=
    "Ops! Parece que você adicionou um endereço inválido! Por favor, insira um e-mail válido."
  const PasswordRequiredMessage :=
    "Ops! Parece que você esqueceu de inserir sua senha. Por favor, preencha esse campo para prosseguir com o login."
  const PasswordTooShortMessage := "Ops! Sua senha deve conter no mínimo 8 caracteres."
  const GenericLoginError := "Ocorreu um erro ao fazer login"
  const JobPath := "/job"

  const EmailSchema := StringSchema(true, EmailRequiredMessage,
    [MinLength(6, EmailTooShortMessage), Email(EmailInvalidMessage)])
  const PasswordSchema := StringSchema(true, PasswordRequiredMessage, [MinLength(8, PasswordTooShortMessage)])

  /** The form values; both inputs start as "". */
  datatype SignInValues = SignInValues(email: string, password: string)

  /** What `SignInValidationFormSchema` accepts; `isEmail` stands for zod's email pattern. */
  predicate AcceptsSignIn(v: SignInValues, isEmail: string -> bool)
  {
    && Utf16Length(Trim(v.email)) >= 6 && isEmail(Trim(v.email))
    && Utf16Length(Trim(v.password)) >= 8
  }

  /** Every issue the schema reports, email issues first. */
  function SignInIssues(v: SignInValues, isEmail: string -> bool): seq<Issue>
  {
    IssuesOf(ParseString("email", EmailSchema, Some(v.email), isEmail))
    + IssuesOf(ParseString("password", PasswordSchema, Some(v.password), isEmail))
  }

  /** `FieldErrors<SignInFormValues>`: the message recorded for each field, if any. */
  datatype SignInErrors = SignInErrors(email: Option<string>, password: Option<string>)

  function MessageAt(issues: seq<Issue>, path: string): Option<string>
  {
    var first := FirstIssueAt(issues, path);
    if first.Some? then Some(first.value.message) else None
  }

  /**
   * The errors react-hook-form records. The length check of the email runs before its format
   * check, so a short email reports the length message whatever its format.
   */
  function FormErrors(v: SignInValues, isEmail: string -> bool): (e: SignInErrors)
    ensures e.email == if Utf16Length(Trim(v.email)) < 6 then Some(EmailTooShortMessage)
                       else if !isEmail(Trim(v.email)) then Some(EmailInvalidMessage)
                       else None
    ensures e.password == if Utf16Length(Trim(v.password)) < 8 then Some(PasswordTooShortMessage) else None
  {
    var issues := SignInIssues(v, isEmail);
    var emailIssues := IssuesOf(ParseString("email", EmailSchema, Some(v.email), isEmail));
    var passwordIssues := IssuesOf(ParseString("password", PasswordSchema, Some(v.password), isEmail));
    FirstIssueAtConcat(emailIssues, passwordIssues, "email");
    FirstIssueAtConcat(emailIssues, passwordIssues, "password");
    assert FirstIssueAt(passwordIssues, "email").None?;
    assert FirstIssueAt(emailIssues, "password").None?;
    SignInErrors(MessageAt(issues, "email"), MessageAt(issues, "password"))
  }

  /** `zodResolver(SignInValidationFormSchema)`: the trimmed values, or the recorded errors. */
  function ValidateSignIn(v: SignInValues, isEmail: string -> bool): (r: Result<SignInValues, SignInErrors>)
    ensures r.Success? <==> AcceptsSignIn(v, isEmail)
    ensures r.Success? ==> r.value == SignInValues(Trim(v.email), Trim(v.password))
    ensures r.Failure? ==> r.error == FormErrors(v, isEmail) && r.error != SignInErrors(None, None)
  {
    var errors := FormErrors(v, isEmail);
    if errors == SignInErrors(None, None) then Success(SignInValues(Trim(v.email), Trim(v.password)))
    else Failure(errors)
  }

  /** `showErrorAlerts`: at most one warning, and an email error wins over a password error. */
  function ShowErrorAlerts(e: SignInErrors): (warning: Option<string>)
    ensures warning.None? <==> e.email.None? && e.password.None?
    ensures e.email.Some? ==> warning == e.email
    ensures warning.Some? ==> warning == e.email || warning == e.password
  {
    if e.email.Some? then e.email else e.password
  }

  /** "a@b.c" is refused with the length message, whatever the password and the format check say. */
  lemma ShortEmailScenario(password: string, isEmail: string -> bool)
    ensures ShowErrorAlerts(FormErrors(SignInValues("a@b.c", password), isEmail)) == Some(EmailTooShortMessage)
  {
    assert Utf16Length(Trim("a@b.c")) == 5;
  }

  /**
   * `signInRequest`'s answer, `response.data`. Its declared type always has a user, but nothing
   * checks it: a body without one gives `user: None` (`undefined`).
   */
  datatype AuthResponse = AuthResponse(token: string, user: Option<ClientUser>)

  /** What a rejected request throws: an `Error` with its message, or any other value. */
  datatype Thrown = ErrorInstance(message: string) | OtherValue

  datatype AuthResult = Authenticated(response: AuthResponse) | Rejected(thrown: Thrown)

  datatype SubmitOutcome = Warned(warning: Option<string>) | LoggedIn | ErrorToast(message: string)

  /** The text of the error toast for a rejected request. */
  function FailureMessage(t: Thrown): (m: string)
    ensures t.ErrorInstance? ==> m == t.message
    ensures t.OtherValue? ==> m == GenericLoginError
  {
    match t
    case ErrorInstance(message) => message
    case OtherValue => GenericLoginError
  }

  /**
   * `handleSubmit(onSubmit, showErrorAlerts)`. `authenticate` stands for the request, `stringify`
   * for `JSON.stringify`. Invalid input and a rejected request leave the session as it was.
   */
  method Submit(session: AuthSession, v: SignInValues, isEmail: string -> bool,
                authenticate: SignInValues -> AuthResult, stringify: ClientUser -> string)
    returns (outcome: SubmitOutcome)
    modifies session
    ensures !AcceptsSignIn(v, isEmail) ==>
      outcome == Warned(ShowErrorAlerts(FormErrors(v, isEmail))) && unchanged(session)
    ensures AcceptsSignIn(v, isEmail) ==>
      var result := authenticate(SignInValues(Trim(v.email), Trim(v.password)));
      match result
      case Rejected(t) => outcome == ErrorToast(FailureMessage(t)) && unchanged(session)
      case Authenticated(response) =>
        && outcome == LoggedIn
        && session.storage == SignedInStorage(old(session.storage), response.token, StoredUserText(response.user, stringify))
        && session.user == response.user
        && session.lastNavigation == Some(JobPath)
  {
    var parsed := ValidateSignIn(v, isEmail);
    if parsed.Failure? {
      return Warned(ShowErrorAlerts(parsed.error));
    }
    var result := authenticate(parsed.value);
    match result {
      case Rejected(t) =>
        outcome := ErrorToast(FailureMessage(t));
      case Authenticated(response) =>
        session.SignIn(response.token, response.user, stringify);
        session.lastNavigation := Some(JobPath);
        outcome := LoggedIn;
    }
  }

  /** `response.data` when POST /sessions answers with its `{ token }` body: there is no user. */
  function SessionsResponseData(body: SessionsController.TokenBody): (response: AuthResponse)
    ensures response.token == body.token && response.user.None?
  {
    AuthResponse(body.token, None)
  }

  /**
   * The request against the project's own POST /sessions. A rejection reaches the page as an
   * `Error` carrying the `{ message }` of the 401 reply.
   */
  function SessionsRequest(v: SignInValues, sign: SessionsController.SignOptions -> string): (r: AuthResult)
    ensures r.Authenticated? <==> v.email == SessionsController.FakeUserEmail && v.password == SessionsController.FakeUserPassword
    ensures r.Authenticated? ==> r.response.user.None?
    ensures r.Rejected? ==> r.thrown == ErrorInstance(SessionsController.InvalidCredentialsMessage)
  {
    var reply := SessionsController.Create(SessionsController.LoginBody(Some(v.email), Some(v.password)), sign);
    if reply.Success? then Authenticated(SessionsResponseData(reply.value.body))
    else Rejected(ErrorInstance(SessionsController.InvalidCredentialsMessage))
  }

  /** The API's credentials pass the form's schema unchanged by trimming. */
  lemma FakeCredentialsAccepted(isEmail: string -> bool)
    requires isEmail(SessionsController.FakeUserEmail)
    ensures var v := SignInValues(SessionsController.FakeUserEmail, SessionsController.FakeUserPassword);
            AcceptsSignIn(v, isEmail) && SignInValues(Trim(v.email), Trim(v.password)) == v
  {
    TrimClean(SessionsController.FakeUserEmail);
    TrimClean(SessionsController.FakeUserPassword);
  }

  /**
   * Signing in with the right credentials against the project's own API: the page reports
   * success and moves to "/job", yet no user is set, and the next reload clears both keys.
   */
  method SignInAgainstSessionsApi(session: AuthSession, isEmail: string -> bool,
                                  sign: SessionsController.SignOptions -> string,
                                  stringify: ClientUser -> string, parse: string -> ParseResult)
    returns (outcome: SubmitOutcome)
    requires isEmail(SessionsController.FakeUserEmail)
    requires sign(SessionsController.SignOptions("1d", "1")) != ""
    requires parse(UndefinedText) == ParseError
    modifies session
    ensures outcome == LoggedIn && session.lastNavigation == Some(JobPath)
    ensures !session.IsAuthenticated()
    ensures session.storage == SignedInStorage(old(session.storage), sign(SessionsController.SignOptions("1d", "1")), UndefinedText)
    ensures RestoreSession(session.storage, parse) == (SignedOutStorage(old(session.storage)), None)
  {
    var v := SignInValues(SessionsController.FakeUserEmail, SessionsController.FakeUserPassword);
    FakeCredentialsAccepted(isEmail);
    var authenticate := (w: SignInValues) => SessionsRequest(w, sign);
    var result := authenticate(v);
    assert result.Authenticated? && result.response == AuthResponse(sign(SessionsController.SignOptions("1d", "1")), None);
    outcome := Submit(session, v, isEmail, authenticate, stringify);
    ReloadAfterSignInWithoutUser(old(session.storage), sign(SessionsController.SignOptions("1d", "1")), parse);
  }
}
