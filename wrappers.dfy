/** Option, the HTTP exceptions the core throws, and a Result that carries one of them. */
module Wrappers {

  datatype Option<+T> = None | Some(value: T)

  /** The exceptions the handlers throw, by HTTP status. */
  datatype HttpError =
    | BadRequest(message: string)     // 400: HttpException(..., 400), ParseEnumPipe
    | Unauthorized(message: string)   // 401: UnauthorizedException
    | Forbidden(message: string)      // 403: a role guard that says no
    | NotFound(message: string)       // 404: NotFoundException
    | Conflict(message: string)       // 409: ConflictException
    | ServerError(message: string)    // 500: an exception nobody catches

  datatype Result<+T> = Success(value: T) | Failure(error: HttpError)
}
