/** The shape of a route handler's JSON response: a status and either a body or an error message. */
module Http {

  datatype Reply<T> = Success(status: int, body: T) | Failure(status: int, error: string)

  /** `{ error: "Unauthorized" }` with status 401, the answer to a request without a session. */
  function Unauthorized<T>(): Reply<T> {
    Failure(401, "Unauthorized")
  }

  /** `{ error: "Internal server error" }` with status 500, the answer when a database call throws. */
  function InternalError<T>(): Reply<T> {
    Failure(500, "Internal server error")
  }

  function BadRequest<T>(message: string): Reply<T> {
    Failure(400, message)
  }

  /** What a `catch` block receives: an `Error` with its message, or any other thrown value. */
  datatype Thrown = ErrorValue(message: string) | OtherValue

  /** The outcome of a call that may throw. */
  datatype Attempt<T> = Done(value: T) | Threw(error: Thrown)
}
