/** Values shared by the gateway actions and API handlers: optional values,
    results of collaborator calls and the API error shapes the gateway returns. */
module Common {

  datatype Option<+T> = None | Some(value: T)

  datatype Result<+T, +E> = Success(value: T) | Failure(error: E)

  /** An error reported by a collaborator (the configstore, the run-creation action,
      the authorization lookup, a git source client). Its classification is
      the collaborator's. */
  datatype Cause =
    | NotFound(subject: string)
    | AlreadyExists(subject: string)
    | Other(reason: string)

  /** The API error codes the gateway itself raises. */
  datatype ErrorCode = ErrBadRequest | ErrForbidden | ErrInternal

  /** The machine-readable detail attached to an API error. */
  datatype ErrorDetail = NoDetail | InvalidSecretName

  /** A message as a format string and the values substituted into it. */
  datatype Msg = Msg(format: string, args: seq<string>)

  /** The errors a gateway operation returns. */
  datatype Error =
      // a new API error with no underlying cause
    | ApiError(code: ErrorCode, msg: Msg, detail: ErrorDetail)
      // a new API error wrapping a collaborator's error
    | WrappedApiError(code: ErrorCode, cause: Cause, msg: Msg)
      // a collaborator's error turned into an API error, keeping the
      // collaborator's own classification, with an optional message
    | RemoteApiError(cause: Cause, context: Option<Msg>)
      // a collaborator's error passed on with a context string only
    | Wrapped(cause: Cause, prefix: string)
  {
    /** The error is an API error the gateway classified as `c`. */
    predicate HasCode(c: ErrorCode) {
      (ApiError? || WrappedApiError?) && code == c
    }
  }
}
