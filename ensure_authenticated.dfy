/**
 * The bearer-token middleware. The header is expected in the form of section 2.1 of RFC 6750,
 * `Bearer <token>`, but only its second space-separated word is used; the scheme word is never
 * compared. Every failure, a missing header included, ends in the same 401 error.
 */
module EnsureAuthenticated {
  import opened Wrappers
  import opened Strings
  import opened Errors

  const InvalidTokenMessage := "JWT token inválido!"

  /** What jsonwebtoken's `verify` does with a token: its `sub` claim, or a failure. */
  datatype VerifyResult = Verified(sub: Option<string>) | VerifyFailed

  /** `request.user`. */
  datatype RequestUser = RequestUser(id: string)

  /** The request as the middleware sees and changes it. */
  class Request {
    /** `request.headers.authorization`. */
    var authorization: Option<string>
    var user: Option<RequestUser>

    constructor (authorization: Option<string>)
      ensures this.authorization == authorization && user.None?
    {
      this.authorization := authorization;
      user := None;
    }
  }

  datatype Outcome = CallNext | Throw(error: Error)

  /** `const [, token] = authHeader.split(" ")`: the second word, `None` when there is none. */
  function ExtractToken(header: string): (token: Option<string>)
    ensures token.Some? <==> ' ' in header
    ensures token.Some? ==> ' ' !in token.value
  {
    var words := Split(header, ' ');
    if |words| >= 2 then Some(words[1]) else None
  }

  /** The header the web client sends (`Bearer ${token}`, Web/src/lib/axios.ts). */
  function BearerHeader(token: string): string
  {
    "Bearer " + token
  }

  /** Whatever the first word is, the token is the word after the first space. */
  lemma SchemeWordIgnored(scheme: string, token: string)
    requires ' ' !in scheme && ' ' !in token
    ensures ExtractToken(scheme + " " + token) == Some(token)
  {
    assert Join([scheme, token], ' ') == scheme + " " + token;
    SplitJoin([scheme, token], ' ');
  }

  /** Round trip with the client: a token without spaces comes back from the header it is sent in. */
  lemma BearerHeaderRoundTrip(token: string)
    requires ' ' !in token
    ensures ExtractToken(BearerHeader(token)) == Some(token)
  {
    SchemeWordIgnored("Bearer", token);
  }

  /** `String(user_id)`: an absent `sub` becomes the text "undefined". */
  function SubjectText(sub: Option<string>): string
  {
    if sub.Some? then sub.value else "undefined"
  }

  /**
   * Pure decision of the middleware for a header value and a verifier. A missing header throws
   * "JWT token não informado!" inside the `try`, but the `catch` replaces every error, that one
   * included, with the invalid-token error, so only the latter can reach the caller.
   */
  function Authenticate(authorization: Option<string>, verify: string -> VerifyResult): (r: Result<RequestUser, Error>)
    ensures r.Failure? ==> r.error == AppError(InvalidTokenMessage, 401)
    ensures r.Success? <==>
      authorization.Some? && authorization.value != ""
      && ExtractToken(authorization.value).Some?
      && verify(ExtractToken(authorization.value).value).Verified?
    ensures r.Success? ==> r.value.id == SubjectText(verify(ExtractToken(authorization.value).value).sub)
  {
    if authorization.None? || authorization.value == "" then
      Failure(NewAppError(InvalidTokenMessage, 401))
    else
      var token := ExtractToken(authorization.value);
      if token.None? then Failure(NewAppError(InvalidTokenMessage, 401))
      else match verify(token.value) {
        case VerifyFailed => Failure(NewAppError(InvalidTokenMessage, 401))
        case Verified(sub) => Success(RequestUser(SubjectText(sub)))
      }
  }

  /**
   * jsonwebtoken's `verify` refuses the empty string, so a header whose second word is empty
   * (`"Bearer "`, for one) never authenticates.
   */
  lemma EmptyTokenRejected(scheme: string, verify: string -> VerifyResult)
    requires ' ' !in scheme
    requires verify("") == VerifyFailed
    ensures Authenticate(Some(scheme + " "), verify) == Failure(AppError(InvalidTokenMessage, 401))
  {
    SchemeWordIgnored(scheme, "");
    assert scheme + " " + "" == scheme + " ";
  }

  /** The middleware: sets `request.user` and calls `next` once, or throws and leaves the request alone. */
  method EnsureAuthenticated(request: Request, verify: string -> VerifyResult) returns (outcome: Outcome)
    modifies request`user
    ensures outcome.CallNext? <==> Authenticate(request.authorization, verify).Success?
    ensures outcome.CallNext? ==> request.user == Some(Authenticate(request.authorization, verify).value)
    ensures outcome.Throw? ==> outcome.error == AppError(InvalidTokenMessage, 401) && request.user == old(request.user)
  {
    var authenticated := Authenticate(request.authorization, verify);
    if authenticated.Failure? {
      return Throw(authenticated.error);
    }
    request.user := Some(authenticated.value);
    outcome := CallNext;
  }
}
