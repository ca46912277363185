/**
 * The HTTP client as an oracle. The remote API is a fixed function from a
 * request and its position among all requests made through the client to
 * what that request comes to; the client keeps the log of requests made, so
 * contracts can say how many fetches an operation performs and for what.
 */
module WeatherHttp {
  import opened Weather

  /** One GET for a location, authenticated by an API key. */
  datatype Request = Request(location: string, apiKey: string)

  /** The answer of the remote API to the n-th request made through a client. */
  type Remote = (Request, nat) -> FetchOutcome

  class WeatherHttpClient {
    /** What the network, the API and the JSON decoder together answer. */
    const remote: Remote
    /** Every request made so far, in order. */
    var requests: seq<Request>

    constructor (remote: Remote)
      ensures this.remote == remote && requests == []
    {
      this.remote := remote;
      requests := [];
    }

    /** WeatherHttpClient.getWeather: one request, logged, answered by the oracle. */
    method GetWeather(location: string, apiKey: string) returns (outcome: FetchOutcome)
      modifies this
      ensures requests == old(requests) + [Request(location, apiKey)]
      ensures outcome == remote(Request(location, apiKey), |old(requests)|)
    {
      outcome := remote(Request(location, apiKey), |requests|);
      requests := requests + [Request(location, apiKey)];
    }
  }
}
