/**
 * The values a request handler can throw: Nest's HttpException family (with the
 * response object or string that `getResponse()` gives), plain JavaScript `Error`s
 * (TypeErrors, database errors), and thrown values that are not errors at all.
 */
module HttpErrors {
  import opened Wrappers

  /** One entry of the `details` list of a validation failure: `{field, constraint, message}`. */
  datatype FieldError = FieldError(field: string, constraint: string, message: string)

  /**
   * The `message` property of an exception response: a string, or a list of
   * strings (Nest's built-in validation pipe puts one string per failed constraint there).
   */
  datatype Message = Text(text: string) | Lines(lines: seq<string>)

  /** JavaScript truthiness of an optional message: absent and `''` are falsy, every array is truthy. */
  predicate Truthy(m: Option<Message>) {
    m.Some? && m.value != Text("")
  }

  /** The exception classes the model distinguishes; `catch` clauses test `instanceof` against them. */
  datatype ExceptionClass = BadRequestException | UnauthorizedException | NotFoundException | HttpException

  /**
   * What `getResponse()` returns: the string given to `new HttpException(text, status)`,
   * or the response object, of which only `code`, `message` and `details` are ever read.
   */
  datatype ExceptionResponse =
    | Plain(text: string)
    | Object(code: Option<string>, message: Option<Message>, details: Option<seq<FieldError>>)

  datatype Thrown =
    | Http(kind: ExceptionClass, status: int, response: ExceptionResponse)
    | Error(message: string)
    | NonError

  /**
   * `new BadRequestException(msg)`: Nest builds the response object
   * `{statusCode: 400, message: msg, error: 'Bad Request'}`, which has no `code`.
   */
  function BadRequest(msg: string): Thrown {
    Http(BadRequestException, 400, Object(None, Some(Text(msg)), None))
  }

  /** `new UnauthorizedException(msg)`. */
  function Unauthorized(msg: string): Thrown {
    Http(UnauthorizedException, 401, Object(None, Some(Text(msg)), None))
  }

  /** `new NotFoundException(msg)`. */
  function NotFound(msg: string): Thrown {
    Http(NotFoundException, 404, Object(None, Some(Text(msg)), None))
  }

  /** `new HttpException(text, 500)`: the response is the string itself. */
  function InternalHttp(text: string): Thrown {
    Http(HttpException, 500, Plain(text))
  }

  /** `error instanceof BadRequestException`. */
  predicate IsBadRequest(e: Thrown) {
    e.Http? && e.kind == BadRequestException
  }
}
