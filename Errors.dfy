/** What the form service and controller throw. `ApiError` is the
    application's own tagged error (a message and an HTTP status); the other
    two stand for errors raised by the runtime and the document store. */
module Errors {

  datatype Failure =
    | ApiError(status: int, message: string)
    /** Mongoose could not cast the given id to an ObjectId. */
    | CastError(id: string)
    /** A property was read from null or undefined. */
    | TypeError(reading: string)

  const InvalidId := ApiError(400, "Invalid form id")
  const NotFound := ApiError(404, "Form not found")
  const NotAuthorized := ApiError(403, "Not authorized to delete this form")
  const AuthRequired := ApiError(401, "Auth required")
}
