/**
 The error values thrown through the server and the global Express error
 handler that turns them into the `{ success: false, error }` envelope.
 */
module ErrorHandler {

  import opened Js

  /**
   A thrown JavaScript error. `statusCode` is present only on `AppError`s
   (and on errors a caller decorated); `stack` is the text of `err.stack`.
   */
  datatype Error = Error(name: string, message: string, statusCode: Option<int>, stack: string)

  /**
   `new AppError(message, statusCode)`: the class name becomes the error's
   name, and the captured stack starts with `AppError: <message>` (the frame
   lines that follow it depend on the call site and are not modelled).
   */
  function NewAppError(message: string, statusCode: int): (e: Error)
    ensures e.name == "AppError"
    ensures e.message == message
    ensures e.statusCode == Some(statusCode)
  {
    Error("AppError", message, Some(statusCode), "AppError: " + message)
  }

  /** The body under `error` in the envelope; `stack` is omitted in production. */
  datatype ErrorBody = ErrorBody(message: string, stack: Option<string>)

  /** What the handler sends: an HTTP status and the JSON envelope. */
  datatype ErrorResponse = ErrorResponse(status: int, success: bool, error: ErrorBody)

  const InternalServerError := "Internal server error"

  /** `err.statusCode || 500`. */
  function StatusOf(err: Error): int {
    if err.statusCode.Some? && err.statusCode.value != 0 then err.statusCode.value else 500
  }

  /**
   `errorHandler(err, req, res, next)` with `production` standing for
   `process.env.NODE_ENV === 'production'`. Logging is not modelled.
   */
  function HandleError(err: Error, production: bool): (r: ErrorResponse)
    ensures !r.success
    ensures r.status != 0
    ensures err.statusCode.Some? && err.statusCode.value != 0 ==> r.status == err.statusCode.value
    ensures err.statusCode.None? || err.statusCode.value == 0 ==> r.status == 500
    ensures r.error.stack.Some? <==> !production
    ensures !production ==> r.error == ErrorBody(err.message, Some(err.stack))
    ensures production ==> (r.error.message == InternalServerError <==> r.status == 500 || err.message == InternalServerError)
    ensures r.error.message != err.message ==> production && r.status == 500
  {
    var status := StatusOf(err);
    var message := if production then (if status == 500 then InternalServerError else err.message) else err.message;
    var stack := if production then None else Some(err.stack);
    ErrorResponse(status, false, ErrorBody(message, stack))
  }

  /**
   An `AppError` with a non-zero code other than 500 reaches the client with
   that code and its own message in every mode.
   */
  lemma AppErrorReachesClient(message: string, code: int, production: bool)
    requires code != 0 && code != 500
    ensures HandleError(NewAppError(message, code), production).status == code
    ensures HandleError(NewAppError(message, code), production).error.message == message
  {
  }

  /**
   An `AppError` constructed with the falsy code 0 is reported as 500, and in
   production its message is then hidden like any internal error.
   */
  lemma ZeroCodeFallsBackTo500(message: string)
    ensures HandleError(NewAppError(message, 0), false).status == 500
    ensures HandleError(NewAppError(message, 0), true).error == ErrorBody(InternalServerError, None)
  {
  }

  /**
   In production a failure without a status code (an upstream or runtime
   error) leaks neither its message nor its stack.
   */
  lemma ProductionHidesInternalErrors(err: Error)
    requires err.statusCode.None?
    ensures HandleError(err, true) == ErrorResponse(500, false, ErrorBody(InternalServerError, None))
  {
  }
}
