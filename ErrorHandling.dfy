/**
 * How exceptions are turned into what the user sees: the global middleware's
 * status code and message, and the error-handling service's message, log
 * level and response record.
 */
module ErrorHandling {

  import opened Wrappers

  /**
   * The exception types the two switches name, plus BCL subclasses that reach
   * the same arms through inheritance: ArgumentNullException and
   * ArgumentOutOfRangeException derive from ArgumentException, and
   * ObjectDisposedException from InvalidOperationException.
   */
  datatype ExceptionType =
    | ArgumentNullException
    | ArgumentOutOfRangeException
    | ArgumentException
    | ValidationException
    | UnauthorizedAccessException
    | TimeoutException
    | InvalidOperationException
    | ObjectDisposedException
    | OtherException

  /** `e is ArgumentException` */
  predicate IsArgumentException(e: ExceptionType) {
    e.ArgumentNullException? || e.ArgumentOutOfRangeException? || e.ArgumentException?
  }

  /** `e is InvalidOperationException` */
  predicate IsInvalidOperationException(e: ExceptionType) {
    e.InvalidOperationException? || e.ObjectDisposedException?
  }

  const MissingInformation: string := "Required information is missing. Please fill in all required fields."
  const InvalidInput: string := "Invalid input provided. Please check your data and try again."
  const InvalidData: string := "The provided data is not valid. Please check your input and try again."
  const NoPermission: string := "You don't have permission to perform this action."
  const TimedOut: string := "The operation timed out. Please try again."
  const CannotComplete: string := "The operation cannot be completed at this time. Please try again later."
  const Unexpected: string := "An unexpected error occurred. Please try again or contact support if the problem persists."

  /** The middleware's status code switch; arms are tried in order, the first `is` match wins. */
  function StatusCode(e: ExceptionType): (code: int)
    ensures code == 400 <==> IsArgumentException(e)
    ensures code == 401 <==> e.UnauthorizedAccessException?
    ensures code == 408 <==> e.TimeoutException?
    ensures code == 409 <==> IsInvalidOperationException(e)
    ensures code == 500 <==> e.ValidationException? || e.OtherException?
  {
    if e.ArgumentNullException? then 400
    else if IsArgumentException(e) then 400
    else if e.UnauthorizedAccessException? then 401
    else if e.TimeoutException? then 408
    else if IsInvalidOperationException(e) then 409
    else 500
  }

  /** The middleware's GetUserFriendlyMessage. */
  function MiddlewareMessage(e: ExceptionType): (message: string)
    ensures e.ArgumentNullException? <==> message == MissingInformation
    ensures IsArgumentException(e) && !e.ArgumentNullException? <==> message == InvalidInput
    ensures e.UnauthorizedAccessException? <==> message == NoPermission
    ensures e.TimeoutException? <==> message == TimedOut
    ensures IsInvalidOperationException(e) <==> message == CannotComplete
    ensures e.ValidationException? || e.OtherException? <==> message == Unexpected
  {
    if e.ArgumentNullException? then MissingInformation
    else if IsArgumentException(e) then InvalidInput
    else if e.UnauthorizedAccessException? then NoPermission
    else if e.TimeoutException? then TimedOut
    else if IsInvalidOperationException(e) then CannotComplete
    else Unexpected
  }

  /**
   * The status code and the message come from the same arm: exceptions that get the
   * same message get the same status code.
   */
  lemma MessageDeterminesStatus(e1: ExceptionType, e2: ExceptionType)
    requires MiddlewareMessage(e1) == MiddlewareMessage(e2)
    ensures StatusCode(e1) == StatusCode(e2)
  {
  }

  /** The middleware's JSON body and status code; the timestamp is left out. */
  datatype ErrorReply = ErrorReply(success: bool, message: string, details: Option<string>, statusCode: int)

  /** `exceptionText` is `exception.ToString()`, shown only in development. */
  function HandleException(e: ExceptionType, isDevelopment: bool, exceptionText: string): (reply: ErrorReply)
    ensures !reply.success
    ensures reply.details.Some? <==> isDevelopment
    ensures isDevelopment ==> reply.details == Some(exceptionText)
    ensures reply.message == MiddlewareMessage(e) && reply.statusCode == StatusCode(e)
  {
    ErrorReply(false, MiddlewareMessage(e), if isDevelopment then Some(exceptionText) else None, StatusCode(e))
  }

  /** The service's GetUserFriendlyErrorMessage: the middleware's arms plus one for ValidationException. */
  function GetUserFriendlyErrorMessage(e: ExceptionType): (message: string)
    ensures e.ArgumentNullException? <==> message == MissingInformation
    ensures IsArgumentException(e) && !e.ArgumentNullException? <==> message == InvalidInput
    ensures e.ValidationException? <==> message == InvalidData
    ensures e.UnauthorizedAccessException? <==> message == NoPermission
    ensures e.TimeoutException? <==> message == TimedOut
    ensures IsInvalidOperationException(e) <==> message == CannotComplete
    ensures e.OtherException? <==> message == Unexpected
  {
    if e.ArgumentNullException? then MissingInformation
    else if IsArgumentException(e) then InvalidInput
    else if e.ValidationException? then InvalidData
    else if e.UnauthorizedAccessException? then NoPermission
    else if e.TimeoutException? then TimedOut
    else if IsInvalidOperationException(e) then CannotComplete
    else Unexpected
  }

  /** The service and the middleware word every exception alike, except a ValidationException. */
  lemma ServiceAgreesWithMiddleware(e: ExceptionType)
    ensures !e.ValidationException? ==> GetUserFriendlyErrorMessage(e) == MiddlewareMessage(e)
    ensures e.ValidationException? ==> GetUserFriendlyErrorMessage(e) != MiddlewareMessage(e)
  {
  }

  datatype LogLevel = Warning | Error

  /** The level LogError writes at. */
  function LogLevelFor(e: ExceptionType): (level: LogLevel)
    ensures level == Warning <==>
              IsArgumentException(e) || e.ValidationException? || e.UnauthorizedAccessException?
  {
    if e.ArgumentNullException? || IsArgumentException(e) || e.ValidationException? || e.UnauthorizedAccessException? then Warning
    else if e.TimeoutException? then Error
    else Error
  }

  /** What a call of LogError does: writes at its level, or throws when the logger is null. */
  datatype LogOutcome = Logged(level: LogLevel) | LoggerThrew(exception: ExceptionType)

  /**
   * LogError(logger, e, ...): the logging extension methods reject a null logger with
   * an ArgumentNullException before anything is written.
   */
  function LogError(loggerPresent: bool, e: ExceptionType): (outcome: LogOutcome)
    ensures loggerPresent ==> outcome == Logged(LogLevelFor(e))
    ensures !loggerPresent ==> outcome == LoggerThrew(ArgumentNullException)
  {
    if loggerPresent then Logged(LogLevelFor(e)) else LoggerThrew(ArgumentNullException)
  }

  /** The service's standard error response; the timestamp is left out. */
  datatype ErrorResponse = ErrorResponse(success: bool, message: string, details: Option<string>, errorCode: Option<string>)

  function CreateErrorResponse(message: string, details: Option<string>, errorCode: Option<string>): (response: ErrorResponse)
    ensures !response.success
    ensures response.message == message && response.details == details && response.errorCode == errorCode
  {
    ErrorResponse(false, message, details, errorCode)
  }
}
