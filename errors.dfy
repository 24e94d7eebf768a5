/** The error taxonomy of the client (src/error.rs), as plain values. */
module Errors {

  /** Reasons the push stream gives for refusing authentication. */
  datatype AuthenticationError = LabelMe | InternalError | InvalidSession | AlreadyAuthenticated

  /** A structured error decoded from a non-success response of the REST API.
      Only the variant's tag is kept; the payloads (limits, permissions) are not. */
  datatype ApiError = ApiError(tag: string)

  /** Every failure that can travel through a `Result` of the client: the variants
      of `RSError`, a decoded API error, a frame that could not be decoded, and the
      errors that application code (commands, callbacks) returns. */
  datatype Error =
    | CommandNotFound(message: string)
    | Http(reason: string)
    | Ws(reason: string)
    | Authentication(auth: AuthenticationError)
    | Unknown(message: string)
    | ErrorHandlerNotSet
    | Api(api: ApiError)
    | Decode(reason: string)
    | Application(reason: string)

  /** The outcome of an operation that returns `Result<()>`. */
  datatype Outcome = Done | Failed(error: Error)
}
