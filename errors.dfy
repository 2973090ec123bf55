/** What the request handlers throw: `AppError`, zod's `ZodError`, or any other error. */
module Errors {
  import opened Validation

  datatype Error =
    | AppError(message: string, statusCode: int)
    | ZodError(issues: seq<Issue>)
    | UnexpectedError(message: string)

  /** The status an `AppError` gets when its constructor is given none. */
  const DefaultStatusCode := 400

  /** `new AppError(message, statusCode = 400)`. */
  function NewAppError(message: string, statusCode: int := DefaultStatusCode): (e: Error)
    ensures e.AppError? && e.message == message && e.statusCode == statusCode
  {
    AppError(message, statusCode)
  }

  /** `new AppError(message)` without a status code answers with 400 Bad Request. */
  lemma AppErrorDefaultsToBadRequest(message: string)
    ensures NewAppError(message) == AppError(message, 400)
  {
  }
}
