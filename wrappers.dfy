/** Optional values and the outcome of a step that talks to the platform. */
module Wrappers {

  datatype Option<+T> = None | Some(value: T)

  /** Why a step was abandoned. Python raises an exception in both cases. */
  datatype Failure =
    /** `OctopusApiError`: a checked call got a falsy response. The retry policy matches only this kind. */
    | ApiError
    /** A falsy response to an unchecked GET. Its JSON then has no `Items`/`Id`/`IsCompleted`
        key, so a KeyError or decoding error escapes. It is never retried. */
    | UndecodableResponse

  /** Either a value, or the exception that ended the step. */
  datatype Outcome<+T> = Ok(value: T) | Err(failure: Failure)
}
