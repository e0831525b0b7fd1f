/** The HTTP status codes the router answers with, and their reason phrases
    as Go's `net/http.StatusText` spells them. */
module Http {

  datatype Status = OK | Created | BadRequest | NotFound | UnprocessableEntity | InternalServerError
  {
    /** The numeric code (`http.StatusOK` and so on). */
    function Code(): int
    {
      match this
      case OK => 200
      case Created => 201
      case BadRequest => 400
      case NotFound => 404
      case UnprocessableEntity => 422
      case InternalServerError => 500
    }

    /** The reason phrase (`http.StatusText`). */
    function Text(): string
    {
      match this
      case OK => "OK"
      case Created => "Created"
      case BadRequest => "Bad Request"
      case NotFound => "Not Found"
      case UnprocessableEntity => "Unprocessable Entity"
      case InternalServerError => "Internal Server Error"
    }
  }
}
