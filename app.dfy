/** The root handler and the global error handler of the Express app (src/app.ts). */
module App {
  import opened Wrappers
  import opened HttpErrors
  import opened Express
  import opened Logging
  import Middlewares
  import TokenService

  const Greeting := "Hello, Pizza Stack!"

  /** `GET /`: the fixed greeting, sent with Express's default status. */
  function Root(): (reply: (int, Body))
    ensures reply.0 == 200 && reply.1.Text? && reply.1.text == "Hello, Pizza Stack!"
  {
    (200, Text(Greeting))
  }

  /** What the global error handler does with an error: one log record, then a status and a body. */
  datatype ErrorReply = ErrorReply(logged: LogEntry, status: int, body: Body)

  /**
   * The global error handler. The status is the error's own when it has a
   * non-zero one (`err.status || 500`), else 500; the body is an envelope of
   * exactly one entry that repeats the error's name and message with empty
   * `path` and `location`; the message is logged at error level first.
   */
  function ErrorHandler(err: Error): (reply: ErrorReply)
    ensures reply.logged == LogEntry(ErrorLevel, err.message, NoMeta)
    ensures err.status.Some? && err.status.value != 0 ==> reply.status == err.status.value
    ensures err.status.None? || err.status == Some(0) ==> reply.status == 500
    ensures reply.body.ErrorEnvelope? && |reply.body.errors| == 1
    ensures reply.body.errors[0].errorType == err.name && reply.body.errors[0].message == err.message
    ensures reply.body.errors[0].path == "" && reply.body.errors[0].location == ""
  {
    var statusCode := match err.status
      case Some(s) => if s != 0 then s else 500
      case None => 500;
    ErrorReply(
      LogEntry(ErrorLevel, err.message, NoMeta),
      statusCode,
      ErrorEnvelope([ErrorEntry(err.name, err.message, "", "")]))
  }

  /**
   * A request that the `/users` gate turns away ends as 403 with the gate's
   * message, never as 401; an error without a status, such as a duplicate email
   * or a TypeError, ends as 500. src/app.ts mounts only the `/auth` router, so
   * this combines the gate with the handler as if the `/users` router of
   * src/routes/user.ts were mounted as well.
   */
  lemma ForwardedErrorStatuses(auth: Middlewares.Auth)
    requires auth.role != Some(Middlewares.ADMIN)
    ensures Middlewares.CanAccess(Middlewares.UsersRouteRoles, auth).Forward?
    ensures var reply := ErrorHandler(Middlewares.CanAccess(Middlewares.UsersRouteRoles, auth).error);
            && reply.status == 403
            && reply.body == ErrorEnvelope([ErrorEntry("ForbiddenError", Middlewares.ForbiddenMessage, "", "")])
    ensures ErrorHandler(UniqueViolation).status == 500
    ensures ErrorHandler(UndefinedIdError).status == 500
    ensures ErrorHandler(CreateHttpError(500, TokenService.MissingKeyMessage)).status == 500
  {
    Middlewares.UsersRoutesAreAdminOnly(auth);
  }
}
