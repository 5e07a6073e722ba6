/**
 * The ways a request can fail: an exception raised by Python code, and how
 * the web framework turns each kind into an HTTP status.
 */
module Errors {

  /** Python exceptions that the modelled code can raise. */
  datatype PyError =
    | ValueError(message: string)  // e.g. PyObjectId.validate on a malformed id
    | KeyError(key: string)        // dict.pop of a missing key
    | DuplicateKeyError            // insert of a document whose _id is already taken

  /** What the framework answers instead of the handler's value. */
  datatype Failure =
    | HttpException(status: int, detail: string)  // raised on purpose by a handler
    | RequestValidationError                      // the request body or query fails its declared constraints
    | Uncaught(exception: PyError)                // any other exception escaping the handler

  const BadRequest := 400
  const NotFound := 404
  const UnprocessableEntity := 422
  const InternalServerError := 500

  const InvalidIdeaId := HttpException(BadRequest, "Invalid idea id")
  const IdeaNotFound := HttpException(NotFound, "Idea not found")

  /** The status code of the response that reports the failure. */
  function StatusCode(f: Failure): (code: int)
    ensures f.HttpException? ==> code == f.status
    ensures f.RequestValidationError? ==> code == 422
    ensures f.Uncaught? ==> code == 500
  {
    match f
    case HttpException(status, _) => status
    case RequestValidationError => UnprocessableEntity
    case Uncaught(_) => InternalServerError
  }
}
