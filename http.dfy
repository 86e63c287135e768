/** The parts of the Fetch API's requests and responses that the worker looks at. */
module Http {
  /** `Request.mode`; only `Navigate` is ever tested by the worker. */
  datatype Mode = Navigate | SameOrigin | NoCors | Cors

  /** A request: its method, its absolute URL and its mode. */
  datatype Request = Request(httpMethod: string, url: string, mode: Mode)

  /** A response snapshot: status code and body. */
  datatype Response = Response(status: int, body: string)

  /** `response.ok`: the status is in the range 200-299. */
  predicate Ok(r: Response)
  {
    200 <= r.status <= 299
  }

  /** What a call to `fetch` settles to: a response of any status, or a rejection. */
  datatype FetchOutcome = Fetched(response: Response) | NetworkError
}
