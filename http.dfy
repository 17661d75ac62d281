/** The HTTP status codes the gateway answers with and the `HTTPException`
    it raises: a status plus the `detail` text the caller sees. */
module Http {

  datatype Status =
    | OK
    | BadRequest
    | Unauthorized
    | UnprocessableEntity
    | InternalServerError
    | ServiceUnavailable
  {
    function Code(): (c: nat)
      ensures 200 <= c < 600
    {
      match this
      case OK => 200
      case BadRequest => 400
      case Unauthorized => 401
      case UnprocessableEntity => 422
      case InternalServerError => 500
      case ServiceUnavailable => 503
    }
  }

  datatype HttpError = HttpError(status: Status, detail: string)

  /** What the server framework sends for an exception nobody handled. */
  const UNHANDLED_EXCEPTION: HttpError := HttpError(InternalServerError, "Internal Server Error")
}
