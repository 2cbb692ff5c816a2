/** The exceptions and engine errors the client can raise, and the result type
    the model returns them in. */
module Errors {
  datatype Error =
    | TypeError(message: string)       // an argument or property of the wrong type
    | EngineError(message: string)     // an engine `Error`, such as `[]` applied to a string
    | OutOfBounds(message: string)     // `RestClient\Exception\OutOfBounds`
    | BadMethodCall(message: string)   // `RestClient\Exception\BadMethodCall`
    | ClientError(message: string)     // `RestClientException` of version 1
    | Unmodelled(what: string)         // behaviour this model does not follow further

  datatype Result<+T> = Ok(value: T) | Fail(error: Error)
}
