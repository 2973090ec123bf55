/**
 * Account registration: the body schema, the duplicate-email check, bcrypt hashing of the
 * trimmed password, and a 201 answer with every stored field except the password.
 */
module UserController {
  import opened Wrappers
  import opened Strings
  import opened Validation
  import opened Errors
  import opened Http
  import ErrorHandling

  const DuplicateEmailMessage := "Ops! Este e-mail já está em uso. Por favor, escolha outro e-mail."
  /** The cost factor passed to bcrypt's `hash`. */
  const BcryptSaltRounds := 10

  datatype RawUserBody = RawUserBody(name: Option<string>, email: Option<string>, password: Option<string>)

  datatype UserBody = UserBody(name: string, email: string, password: string)

  /** A row of the users table; `password` holds the bcrypt hash. */
  datatype User = User(
    id: string, name: string, email: string, password: string,
    avatar: Option<string>, created_at: int, updated_at: int)

  /** A user as the API shows it: every stored field but the password. */
  datatype PublicUser = PublicUser(
    id: string, name: string, email: string,
    avatar: Option<string>, created_at: int, updated_at: int)

  const NameSchema := StringSchema(true,
    "Ops! Parece que você esqueceu de inserir seu nome. Por favor, preencha esse campo para prosseguir com o cadastro.",
    [MinLength(4, "Ops! Para prosseguir com o cadastro o campo 'nome' deve conter no mínimo 4 caracteres.")])

  const EmailSchema := StringSchema(true,
    "Ops! Parece que você esqueceu de inserir seu e-mail. Por favor, preencha esse campo para prosseguir com o cadastro.",
    [ MinLength(6, "Ops! Para prosseguir com o cadastro, o campo “e-mail” deve conter no mínimo 6 caracteres."),
      Email("Ops! Parece que você adicionou um endereço inválido! Por favor, insira um e-mail válido.")])

  const PasswordSchema := StringSchema(true,
    "Ops! Parece que você esqueceu de criar sua senha. Por favor, preencha esse campo para prosseguir com o cadastro.",
    [MinLength(8, "Ops! Sua senha deve conter no mínimo 8 caracteres. Escolha uma senha mais segura.")])

  /** What the registration schema accepts; `isEmail` stands for zod's email pattern. */
  predicate AcceptsUserBody(raw: RawUserBody, isEmail: string -> bool)
  {
    && raw.name.Some? && Utf16Length(Trim(raw.name.value)) >= 4
    && raw.email.Some? && Utf16Length(Trim(raw.email.value)) >= 6 && isEmail(Trim(raw.email.value))
    && raw.password.Some? && Utf16Length(Trim(raw.password.value)) >= 8
  }

  /** The fields whose rule the body breaks, by their paths. */
  function FailingUserFields(raw: RawUserBody, isEmail: string -> bool): set<string>
  {
    Named(raw.name.Some? && Utf16Length(Trim(raw.name.value)) >= 4, "name")
    + Named(raw.email.Some? && Utf16Length(Trim(raw.email.value)) >= 6 && isEmail(Trim(raw.email.value)), "email")
    + Named(raw.password.Some? && Utf16Length(Trim(raw.password.value)) >= 8, "password")
  }

  /** No field fails exactly when the schema accepts the body. */
  lemma NoFailingUserFields(raw: RawUserBody, isEmail: string -> bool)
    ensures FailingUserFields(raw, isEmail) == {} <==> AcceptsUserBody(raw, isEmail)
  {
    if !(raw.name.Some? && Utf16Length(Trim(raw.name.value)) >= 4) {
      assert "name" in FailingUserFields(raw, isEmail);
    } else if !(raw.email.Some? && Utf16Length(Trim(raw.email.value)) >= 6 && isEmail(Trim(raw.email.value))) {
      assert "email" in FailingUserFields(raw, isEmail);
    } else if !(raw.password.Some? && Utf16Length(Trim(raw.password.value)) >= 8) {
      assert "password" in FailingUserFields(raw, isEmail);
    }
  }

  /** The name's parse names "name" exactly when its rule fails. */
  lemma NamePaths(raw: RawUserBody, isEmail: string -> bool)
    ensures Paths(IssuesOf(ParseString("name", NameSchema, raw.name, isEmail)))
         == Named(raw.name.Some? && Utf16Length(Trim(raw.name.value)) >= 4, "name")
  {
    if raw.name.Some? {
      AllPassOne(NameSchema.checks[0], Trim(raw.name.value), isEmail);
    }
    PathsOfParse(ParseString("name", NameSchema, raw.name, isEmail), "name");
  }

  /** The email's parse names "email" exactly when its rule fails. */
  lemma EmailPaths(raw: RawUserBody, isEmail: string -> bool)
    ensures Paths(IssuesOf(ParseString("email", EmailSchema, raw.email, isEmail)))
         == Named(raw.email.Some? && Utf16Length(Trim(raw.email.value)) >= 6 && isEmail(Trim(raw.email.value)), "email")
  {
    if raw.email.Some? {
      AllPassPair(EmailSchema.checks[0], EmailSchema.checks[1], Trim(raw.email.value), isEmail);
    }
    PathsOfParse(ParseString("email", EmailSchema, raw.email, isEmail), "email");
  }

  /** The password's parse names "password" exactly when its rule fails. */
  lemma PasswordPaths(raw: RawUserBody, isEmail: string -> bool)
    ensures Paths(IssuesOf(ParseString("password", PasswordSchema, raw.password, isEmail)))
         == Named(raw.password.Some? && Utf16Length(Trim(raw.password.value)) >= 8, "password")
  {
    if raw.password.Some? {
      AllPassOne(PasswordSchema.checks[0], Trim(raw.password.value), isEmail);
    }
    PathsOfParse(ParseString("password", PasswordSchema, raw.password, isEmail), "password");
  }

  /** Every issue the registration schema finds, field by field in schema order. */
  function UserIssues(raw: RawUserBody, isEmail: string -> bool): (issues: seq<Issue>)
    ensures Paths(issues) == FailingUserFields(raw, isEmail)
    ensures issues == [] <==> AcceptsUserBody(raw, isEmail)
  {
    var name := IssuesOf(ParseString("name", NameSchema, raw.name, isEmail));
    var email := IssuesOf(ParseString("email", EmailSchema, raw.email, isEmail));
    var password := IssuesOf(ParseString("password", PasswordSchema, raw.password, isEmail));
    NamePaths(raw, isEmail);
    EmailPaths(raw, isEmail);
    PasswordPaths(raw, isEmail);
    PathsConcat(name, email);
    PathsConcat(name + email, password);
    NoFailingUserFields(raw, isEmail);
    name + email + password
  }

  /** `bodySchema.parse(request.body)`. */
  function ValidateUserBody(raw: RawUserBody, isEmail: string -> bool): (r: Result<UserBody, seq<Issue>>)
    ensures r.Success? <==> AcceptsUserBody(raw, isEmail)
    ensures r.Success? ==> r.value == UserBody(Trim(raw.name.value), Trim(raw.email.value), Trim(raw.password.value))
    ensures r.Failure? ==> r.error != [] && Paths(r.error) == FailingUserFields(raw, isEmail)
  {
    var issues := UserIssues(raw, isEmail);
    if issues == [] then
      Success(UserBody(Trim(raw.name.value), Trim(raw.email.value), Trim(raw.password.value)))
    else
      Failure(issues)
  }

  /** `const { password: _, ...userWithoutPassword } = user`. */
  function WithoutPassword(u: User): PublicUser
  {
    PublicUser(u.id, u.name, u.email, u.avatar, u.created_at, u.updated_at)
  }

  /** Stripping the password loses nothing else: putting it back restores the stored user. */
  lemma WithoutPasswordLosesOnlyPassword(u: User)
    ensures var p := WithoutPassword(u);
            User(p.id, p.name, p.email, u.password, p.avatar, p.created_at, p.updated_at) == u
  {
  }

  /**
   * What the client receives when a registration body is refused: 400, "Validation error", and
   * issues that name exactly the failing fields.
   */
  lemma RejectedUserBodyAnswer(raw: RawUserBody, isEmail: string -> bool)
    requires !AcceptsUserBody(raw, isEmail)
    ensures var answer := ErrorHandling.Handle(ZodError(ValidateUserBody(raw, isEmail).error));
            && answer.status == StatusBadRequest
            && answer.body == ErrorHandling.ValidationFailure(ErrorHandling.ValidationErrorMessage, answer.body.issues)
            && answer.body.issues != [] && Paths(answer.body.issues) == FailingUserFields(raw, isEmail)
  {
  }

  /**
   * `prisma.users.findFirst({ where: { email } })`: the first-match lookup of the jobs table,
   * `JobController.FindJob`, keyed here by a user's email.
   */
  function FindUserByEmail(users: seq<User>, email: string): (r: Option<User>)
    ensures r.None? <==> forall i :: 0 <= i < |users| ==> users[i].email != email
    ensures r.Some? ==> r.value in users && r.value.email == email
  {
    if users == [] then None
    else if users[0].email == email then Some(users[0])
    else FindUserByEmail(users[1..], email)
  }

  /** `prisma.users.findUnique({ where: { id } })`: the same first-match lookup, keyed by id. */
  function FindUserById(users: seq<User>, id: string): (r: Option<User>)
    ensures r.None? <==> forall i :: 0 <= i < |users| ==> users[i].id != id
    ensures r.Some? ==> r.value in users && r.value.id == id
  {
    if users == [] then None
    else if users[0].id == id then Some(users[0])
    else FindUserById(users[1..], id)
  }

  ghost predicate EmailsDistinct(users: seq<User>)
  {
    forall i, j :: 0 <= i < j < |users| ==> users[i].email != users[j].email
  }

  ghost predicate UserIdsUnique(users: seq<User>)
  {
    forall i, j :: 0 <= i < j < |users| ==> users[i].id != users[j].id
  }

  /** Appending a user whose email is new keeps the emails pairwise distinct. */
  lemma AppendNewEmailKeepsDistinct(users: seq<User>, u: User)
    requires EmailsDistinct(users)
    requires FindUserByEmail(users, u.email).None?
    ensures EmailsDistinct(users + [u])
  {
  }

  /** The users table. */
  class UserStore {
    var users: seq<User>

    ghost predicate Valid()
      reads this
    {
      UserIdsUnique(users)
    }

    constructor (initial: seq<User>)
      requires UserIdsUnique(initial)
      ensures Valid() && users == initial
    {
      users := initial;
    }

    /**
     * POST /users. `newId` is the id the database generates for the row, `now` its clock,
     * `hash` bcrypt's `hash` and `isEmail` zod's email pattern.
     */
    method Create(raw: RawUserBody, isEmail: string -> bool, hash: (string, nat) -> string, newId: string, now: int)
      returns (res: Result<Reply<PublicUser>, Error>)
      requires Valid()
      requires forall i :: 0 <= i < |users| ==> users[i].id != newId
      modifies this
      ensures Valid()
      ensures ValidateUserBody(raw, isEmail).Failure? ==>
        res == Failure(ZodError(ValidateUserBody(raw, isEmail).error)) && users == old(users)
      ensures ValidateUserBody(raw, isEmail).Success?
              && FindUserByEmail(old(users), ValidateUserBody(raw, isEmail).value.email).Some? ==>
        res == Failure(AppError(DuplicateEmailMessage, 400)) && users == old(users)
      ensures res.Success? <==>
        ValidateUserBody(raw, isEmail).Success?
        && FindUserByEmail(old(users), ValidateUserBody(raw, isEmail).value.email).None?
      ensures res.Success? ==>
        var body := ValidateUserBody(raw, isEmail).value;
        var user := User(newId, body.name, body.email, hash(body.password, BcryptSaltRounds), None, now, now);
        users == old(users) + [user] && res.value == Reply(StatusCreated, WithoutPassword(user))
      ensures EmailsDistinct(old(users)) ==> EmailsDistinct(users)
    {
      var parsed := ValidateUserBody(raw, isEmail);
      if parsed.Failure? {
        return Failure(ZodError(parsed.error));
      }
      var body := parsed.value;
      var userWithSameEmail := FindUserByEmail(users, body.email);
      if userWithSameEmail.Some? {
        return Failure(NewAppError(DuplicateEmailMessage));
      }
      var hashedPassword := hash(body.password, BcryptSaltRounds);
      var user := User(newId, body.name, body.email, hashedPassword, None, now, now);
      if EmailsDistinct(users) {
        AppendNewEmailKeepsDistinct(users, user);
      }
      users := users + [user];
      res := Success(Reply(StatusCreated, WithoutPassword(user)));
    }
  }
}
