/**
 * The errors the core hands to `next`: those built by the http-errors package
 * (a status, a name derived from it and a message) and plain JavaScript errors
 * that carry no status.
 */
module HttpErrors {
  import opened Wrappers

  datatype Error = Error(status: Option<int>, name: string, message: string)

  /**
   * `createHttpError(status, message)` for the two statuses the core raises; the
   * name is the one http-errors derives from the status text.
   */
  function CreateHttpError(status: int, message: string): (e: Error)
    requires status == 403 || status == 500
    ensures e.status == Some(status) && e.message == message
    ensures e.name == (if status == 403 then "ForbiddenError" else "InternalServerError")
  {
    Error(Some(status), if status == 403 then "ForbiddenError" else "InternalServerError", message)
  }

  /** What V8 throws when the program reads the `id` property of `undefined`. */
  const UndefinedIdError := Error(None, "TypeError", "Cannot read properties of undefined (reading 'id')")

  /** What the TypeORM repository rejects with when a unique column would repeat a value. */
  const UniqueViolation := Error(None, "QueryFailedError", "duplicate key value violates unique constraint")
}
