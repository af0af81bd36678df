/** Optional values and the outcome of an operation that may raise. */
module Wrappers {

  datatype Option<+T> = None | Some(value: T) {
    function GetOr(default: T): T {
      match this
      case Some(v) => v
      case None => default
    }
  }

  /** The exception kinds the modelled code raises, each with its message. */
  datatype Failure =
    | ValueError(message: string)
    | TypeError(message: string)
    | KeyError(message: string)
    | AttributeError(message: string)
    | ProviderError(attempts: int, lastError: string)   // LLMProviderError after the retries
    | NotImplemented(message: string)       // NotImplementedError

  /** A value, or the exception the source would raise instead of returning it. */
  datatype Result<+T> = Ok(value: T) | Err(error: Failure)
}
