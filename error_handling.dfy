/** The Express error middleware: classifies a thrown error into a status code and a JSON body. */
module ErrorHandling {
  import opened Validation
  import opened Errors
  import opened Http

  datatype ErrorBody =
    | ErrorMessage(message: string)
    | ValidationFailure(message: string, issues: seq<Issue>)

  const ValidationErrorMessage := "Validation error"

  /** `instanceof AppError` is checked first, then `instanceof ZodError`, then everything else. */
  function Handle(e: Error): (r: Reply<ErrorBody>)
    ensures e.AppError? ==> r == Reply(e.statusCode, ErrorMessage(e.message))
    ensures e.ZodError? ==> r == Reply(StatusBadRequest, ValidationFailure(ValidationErrorMessage, e.issues))
    ensures e.UnexpectedError? ==> r == Reply(StatusInternalError, ErrorMessage(e.message))
    ensures r.body.ValidationFailure? <==> e.ZodError?
  {
    match e
    case AppError(message, statusCode) => Reply(statusCode, ErrorMessage(message))
    case ZodError(issues) => Reply(StatusBadRequest, ValidationFailure(ValidationErrorMessage, issues))
    case UnexpectedError(message) => Reply(StatusInternalError, ErrorMessage(message))
  }

  /** An `AppError` built without a status is answered with 400 and its message. */
  lemma DefaultAppErrorIsBadRequest(message: string)
    ensures Handle(NewAppError(message)) == Reply(400, ErrorMessage(message))
  {
  }
}
