/** The values exchanged with the remote weather API, and the exceptions a service call can end in. */
module Weather {
  import opened Wrappers

  /**
   * A decoded weather response. Only the observation time `dt` (Unix epoch
   * seconds) matters to the caching core; `payload` stands for everything else
   * the response carries (coordinates, temperatures, wind, ...).
   */
  datatype WeatherResponse = WeatherResponse(dt: int, payload: nat)

  /** The checked exception thrown by the HTTP client, with its status code. */
  datatype HttpException = HttpException(message: string, statusCode: int)

  /**
   * What one request to the remote API can come to: a decoded response (which
   * may be null, as a JSON body `null` decodes to null), an HttpException, or
   * some unchecked exception escaping the client.
   */
  datatype FetchOutcome =
    | Fetched(response: Option<WeatherResponse>)
    | Failed(exception: HttpException)
    | Crashed(message: string)

  /**
   * How a call on a weather service can fail: the service is shut down
   * (ServiceShutDownException), the client threw an HttpException, some other
   * exception escaped the client, or a null response reached the cache
   * (whose map refuses null values with a NullPointerException).
   */
  datatype ServiceError =
    | ServiceShutDown
    | Http(exception: HttpException)
    | Unchecked(message: string)
    | NullResponse
}
