/** HTTP replies of the route handlers: a status code and a JSON payload. */
module Http {
  import opened Wrappers

  const OK: nat := 200
  const CREATED: nat := 201
  const BAD_REQUEST: nat := 400
  const NOT_FOUND: nat := 404
  const CONFLICT: nat := 409
  const SERVER_ERROR: nat := 500

  /**
   * A reply body: the data the route returns, or `{ error, details? }`.
   * `details` is present only where the route sends one and the model knows its text.
   */
  datatype Payload<T> = Data(value: T) | Error(message: string, details: Option<string>)

  datatype Reply<T> = Reply(status: nat, payload: Payload<T>)

  function Success<T>(status: nat, value: T): Reply<T> {
    Reply(status, Data(value))
  }

  function Failure<T>(status: nat, message: string): Reply<T> {
    Reply(status, Error(message, None))
  }
}
