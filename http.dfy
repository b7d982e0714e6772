/** The shape of every JSON reply the Express handlers send: a status code, the
    `success` flag (implied by the constructor), a message, and a payload on success. */
module Http {

  datatype Reply<+T> =
    | Success(status: int, message: string, data: T)
    | Failure(status: int, message: string)
  {
    predicate IsOk() { Success? }
  }

  const BadRequest := 400
  const Unauthorized := 401
  const NotFound := 404
  const ServerError := 500
}
