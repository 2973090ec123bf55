/** An HTTP answer: status code and JSON body. */
module Http {

  datatype Reply<+B> = Reply(status: int, body: B)

  /** The `{ message }` body. */
  datatype MessageBody = MessageBody(message: string)

  const StatusOk := 200
  const StatusCreated := 201
  const StatusBadRequest := 400
  const StatusUnauthorized := 401
  const StatusNotFound := 404
  const StatusInternalError := 500
}
