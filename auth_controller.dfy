/** The session-check endpoints, which only read `request.user` and the users table. */
module AuthController {
  import opened Wrappers
  import opened Http
  import opened UserController
  import opened EnsureAuthenticated

  const NotAuthenticatedMessage := "Usuário não autenticado"
  const ValidTokenMessage := "Token válido"
  const UserNotFoundMessage := "Usuário não encontrado"

  /** `{ success, message, userId?, timestamp? }`. */
  datatype ValidateTokenBody = ValidateTokenBody(
    success: bool, message: string, userId: Option<string>, timestamp: Option<string>)

  datatype MeBody = MeFailure(success: bool, message: string) | MeSuccess(success: bool, user: PublicUser)

  /** GET /auth/validate; `nowIso` is `new Date().toISOString()`. */
  function ValidateToken(user: Option<RequestUser>, nowIso: string): (r: Reply<ValidateTokenBody>)
    ensures user.None? ==> r.status == 401 && !r.body.success && r.body.message == NotAuthenticatedMessage
                           && r.body.userId.None? && r.body.timestamp.None?
    ensures user.Some? ==> r.status == 200 && r.body.success && r.body.message == ValidTokenMessage
                           && r.body.userId == Some(user.value.id) && r.body.timestamp == Some(nowIso)
    ensures r.body.success <==> user.Some?
  {
    if user.None? then
      Reply(StatusUnauthorized, ValidateTokenBody(false, NotAuthenticatedMessage, None, None))
    else
      Reply(StatusOk, ValidateTokenBody(true, ValidTokenMessage, Some(user.value.id), Some(nowIso)))
  }

  /** GET /auth/me: the stored user with the six selected fields. */
  function Me(users: seq<User>, user: Option<RequestUser>): (r: Reply<MeBody>)
    ensures user.None? ==> r == Reply(401, MeFailure(false, NotAuthenticatedMessage))
    ensures user.Some? && (forall i :: 0 <= i < |users| ==> users[i].id != user.value.id) ==>
      r == Reply(404, MeFailure(false, UserNotFoundMessage))
    ensures r.status == 200 <==> user.Some? && exists i :: 0 <= i < |users| && users[i].id == user.value.id
    ensures r.status == 200 ==>
      r.body.MeSuccess? && r.body.success && r.body.user.id == user.value.id
      && exists u :: u in users && r.body.user == WithoutPassword(u)
  {
    if user.None? then Reply(StatusUnauthorized, MeFailure(false, NotAuthenticatedMessage))
    else
      var found := FindUserById(users, user.value.id);
      if found.None? then Reply(StatusNotFound, MeFailure(false, UserNotFoundMessage))
      else Reply(StatusOk, MeSuccess(true, WithoutPassword(found.value)))
  }
}
