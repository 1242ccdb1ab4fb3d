/** Optional values and results with an HTTP error, as the endpoints return them. */
module Wrappers {

  datatype Option<+T> = None | Some(value: T)

  /** An HTTP error status with the detail text the server sends back. */
  datatype HttpError = HttpError(status: nat, detail: string)

  datatype Result<+T> = Ok(value: T) | Err(error: HttpError)

  /** The JSON body `{"success": true, "message": ...}` or an error status. */
  datatype Reply = Success(message: string) | Failure(error: HttpError)

  const AuthenticationRequired := HttpError(401, "Authentication required")
  const PearlNotFound := HttpError(404, "Pearl not found")
  const CartNotFound := HttpError(404, "Cart not found")
  /** What an uncaught exception in an endpoint turns into. */
  const InternalServerError := HttpError(500, "Internal Server Error")
}
