/** The errors a call into the client library can end with. */
module Errors {

  datatype Error =
      /** `new Error(message)`: every failure the validator, the adapters and
          the HTTP client raise themselves. */
    | PlainError(message: string)
      /** A TypeError raised by the JavaScript runtime. */
    | TypeError(message: string)
      /** The library's own ValidationError class. */
    | ValidationError(message: string)
      /** The library's HTTPError class, carrying the transport status. */
    | HTTPError(message: string, status: int)
      /** The library's TushareAPIError class, carrying the provider code. */
    | TushareAPIError(message: string, code: int)

  /** The code a TushareAPIError carries when its constructor is given none. */
  const DefaultApiErrorCode: int := -1
}
