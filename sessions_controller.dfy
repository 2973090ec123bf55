/** The token configuration and the login handler, which checks one hard-coded credential pair. */
module SessionsController {
  import opened Wrappers
  import opened Strings
  import opened Errors
  import opened Http

  /** `authConfig.jwt.expiresIn`. */
  const ExpiresIn := "1d"

  const FakeUserId: nat := 1
  const FakeUserEmail := "email@email.com"
  const FakeUserPassword := "12345678"
  const InvalidCredentialsMessage := "Email e/ou senha incorretos!"

  /** The `request.body` fields; `None` is a missing or non-string value, which `!==` never equals. */
  datatype LoginBody = LoginBody(email: Option<string>, password: Option<string>)

  /** The options given to jsonwebtoken's `sign`; the payload is `{}` and the secret is config. */
  datatype SignOptions = SignOptions(expiresIn: string, subject: string)

  /** The success body: `{ token }` and nothing else. */
  datatype TokenBody = TokenBody(token: string)

  /** POST /sessions. `sign` stands for `sign({}, secret, options)`. */
  function Create(body: LoginBody, sign: SignOptions -> string): (r: Result<Reply<TokenBody>, Error>)
    ensures r.Success? <==> body.email == Some(FakeUserEmail) && body.password == Some(FakeUserPassword)
    ensures r.Failure? ==> r.error == AppError(InvalidCredentialsMessage, 401)
    ensures r.Success? ==> r.value == Reply(StatusOk, TokenBody(sign(SignOptions("1d", "1"))))
  {
    if body.email != Some(FakeUserEmail) || body.password != Some(FakeUserPassword) then
      Failure(NewAppError(InvalidCredentialsMessage, 401))
    else
      var options := SignOptions(ExpiresIn, DecimalString(FakeUserId));
      Success(Reply(StatusOk, TokenBody(sign(options))))
  }

  /** Any two rejected logins get the identical answer, so a wrong email and a wrong password look alike. */
  lemma RejectionsAreIdentical(a: LoginBody, b: LoginBody, sign: SignOptions -> string)
    requires a.email != Some(FakeUserEmail) || a.password != Some(FakeUserPassword)
    requires b.email != Some(FakeUserEmail) || b.password != Some(FakeUserPassword)
    ensures Create(a, sign) == Create(b, sign)
  {
  }
}
