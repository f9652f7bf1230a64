/** The two wrapper types every other module uses: an optional value, and the
    outcome of an operation that the server answers with a typed refusal. */
module Wrappers {

  datatype Option<+T> = None | Some(value: T)

  /** The error codes of src/errors.ts that the modelled operations raise. */
  datatype Code =
    | CONFLICT
    | FORBIDDEN
    | STALE_WORKSPACE
    | RESOURCE_LIMIT
    | INVALID_INPUT
    | NOT_FOUND
    | NOT_SUPPORTED
    | INTERNAL_ERROR
    | APPROVAL_REQUIRED
    | APPROVAL_EXPIRED

  datatype Result<+T> = Success(value: T) | Failure(code: Code)
}
