/**
 * The global exception filter: every thrown value becomes an HTTP status and a
 * JSON body `{success: false, error: {code, message, details}, timestamp}`.
 */
module ExceptionFilter {
  import opened Wrappers
  import opened HttpErrors

  const DefaultStatus := 500
  const DefaultCode := "INTERNAL_ERROR"
  const DefaultMessage := "An unexpected error occurred"

  /** The four values `catch` computes before it writes the response. */
  datatype ErrorInfo = ErrorInfo(status: int, code: string, message: Message, details: Option<seq<FieldError>>)

  datatype ErrorField = ErrorField(code: string, message: Message, details: Option<seq<FieldError>>)

  /** The `ApiErrorResponse` body. */
  datatype ApiErrorResponse = ApiErrorResponse(success: bool, error: ErrorField, timestamp: string)

  /** The response `catch` sends: `response.status(status).json(body)`. */
  datatype Reply = Reply(status: int, body: ApiErrorResponse)

  /** `code || DefaultCode` on an optional string. */
  function CodeOr(c: Option<string>): (r: string)
    ensures r != ""
    ensures c.Some? && c.value != "" ==> r == c.value
  {
    if c.Some? && c.value != "" then c.value else DefaultCode
  }

  /** `message || DefaultMessage` on an optional message. */
  function MessageOr(m: Option<Message>): (r: Message)
    ensures Truthy(m) ==> r == m.value
    ensures !Truthy(m) ==> r == Text(DefaultMessage)
  {
    if Truthy(m) then m.value else Text(DefaultMessage)
  }

  /** The translation of a thrown value, case by case as the filter decides it. */
  function ErrorOf(e: Thrown): ErrorInfo {
    match e
    case Http(_, status, Object(c, m, d)) => ErrorInfo(status, CodeOr(c), MessageOr(m), d)
    case Http(_, status, Plain(text)) => ErrorInfo(status, DefaultCode, Text(text), None)
    case Error(m) => ErrorInfo(DefaultStatus, DefaultCode, Text(m), None)
    case NonError => ErrorInfo(DefaultStatus, DefaultCode, Text(DefaultMessage), None)
  }

  /** The response built from the translated values; `timestamp` is `new Date().toISOString()`. */
  function ReplyOf(info: ErrorInfo, timestamp: string): Reply {
    Reply(info.status, ApiErrorResponse(false, ErrorField(info.code, info.message, info.details), timestamp))
  }

  /**
   * `catch`: start from the defaults, overwrite them for an HttpException (status,
   * then code/message/details from an object response or the message from a string
   * response) or for an Error (the message), then build the body.
   */
  method Catch(exception: Thrown, timestamp: string) returns (reply: Reply)
    ensures reply == ReplyOf(ErrorOf(exception), timestamp)
    ensures !reply.body.success && reply.body.timestamp == timestamp
    ensures reply.status == (if exception.Http? then exception.status else 500)
  {
    var status := DefaultStatus;
    var code := DefaultCode;
    var message := Text(DefaultMessage);
    var details: Option<seq<FieldError>> := None;
    if exception.Http? {
      status := exception.status;
      var response := exception.response;
      if response.Object? {
        code := if response.code.Some? && response.code.value != "" then response.code.value else code;
        message := if Truthy(response.message) then response.message.value else message;
        details := response.details;
      } else {
        message := Text(response.text);
      }
    } else if exception.Error? {
      message := Text(exception.message);
    }
    reply := Reply(status, ApiErrorResponse(false, ErrorField(code, message, details), timestamp));
  }

  /** The error code is never empty, whatever was thrown. */
  lemma CodeNeverEmpty(e: Thrown)
    ensures ErrorOf(e).code != ""
    ensures ErrorOf(e).code != DefaultCode ==> e.Http? && e.response.Object? && e.response.code == Some(ErrorOf(e).code)
  {
  }

  /** Details are only ever passed through from an HttpException's response object. */
  lemma DetailsPassThrough(e: Thrown)
    ensures ErrorOf(e).details.Some? ==> e.Http? && e.response.Object? && e.response.details == ErrorOf(e).details
  {
  }

  /** A value that is neither an HttpException nor an Error gets all the defaults. */
  lemma NonErrorIsInternal()
    ensures ErrorOf(NonError) == ErrorInfo(500, "INTERNAL_ERROR", Text("An unexpected error occurred"), None)
  {
  }

  /**
   * A `BadRequestException(msg)` thrown by a service reaches the client as status 400
   * with the default code (its response object has no `code`) and `msg` as the message.
   * Every message the services throw is non-empty.
   */
  lemma ServiceBadRequest(msg: string)
    requires msg != ""
    ensures ErrorOf(BadRequest(msg)) == ErrorInfo(400, DefaultCode, Text(msg), None)
  {
  }

  /** The `HttpException('…', 500)` of a failed LINE call reaches the client as 500 with its text. */
  lemma InternalHttpMessage(text: string)
    ensures ErrorOf(InternalHttp(text)) == ErrorInfo(500, DefaultCode, Text(text), None)
  {
  }
}
