/** What the REST routes answer when they refuse a request: an HTTP status
    code and a detail text. */
module Http {
  datatype HttpError = HttpError(code: nat, detail: string)

  const BadRequest: nat := 400
  const NotFound: nat := 404
  const Conflict: nat := 409
  const Unprocessable: nat := 422
  const ServerError: nat := 500
}
