/**
 * The feed source: the Entry record and an abstract client of the Feedbin API.
 * The HTTP request, basic authentication and JSON decoding are not modelled;
 * the client stands for "whatever the server would answer right now".
 */
module Feedbin {
  import opened Wrappers

  /** An instant, in nanoseconds relative to the Unix epoch (Go's time.Time). */
  type Time = int

  /** One feed item, field for field as the API returns it. */
  datatype Entry = Entry(
    id: int,
    feedId: int,
    title: string,
    author: string,
    summary: string,
    content: string,
    url: string,
    publishedAt: Time,
    createdAt: Time)

  /** The ways a fetch of the latest entries can fail. */
  datatype FetchError =
    | RequestInvalid          // the request could not be built from the base URL
    | TransportFailed         // network failure, including the 10 s client timeout
    | UnexpectedStatus(code: int)
    | DecodeFailed            // the body is not a JSON array of entries

  /**
   * The API client. `response` is the answer the server gives to the next
   * request; `requests` counts the requests sent, so that a caller's
   * contract can say whether the client was consulted at all.
   */
  class Client {
    const limit: int
    var response: Result<seq<Entry>, FetchError>
    var requests: nat

    constructor (limit: int, response: Result<seq<Entry>, FetchError>)
      ensures this.limit == limit && this.response == response && requests == 0
    {
      this.limit := limit;
      this.response := response;
      requests := 0;
    }

    /** One GET of the latest entries: the server's answer, unchanged. */
    method GetLatestEntries() returns (r: Result<seq<Entry>, FetchError>)
      modifies this`requests
      ensures r == response
      ensures requests == old(requests) + 1
    {
      r := response;
      requests := requests + 1;
    }
  }
}
