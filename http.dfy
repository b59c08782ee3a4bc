/** What request handlers hand back to Express. */
module Http {

  /**
   * An `ErrorHandler(message, statusCode)`: the error object a handler passes
   * to `next(...)` for the error middleware to turn into a reply.
   */
  datatype AppError = AppError(message: string, statusCode: int)

  /** A JSON body `{ success, message }` sent with HTTP status `status`. */
  datatype Reply = Reply(status: int, success: bool, message: string)
}
