/** The parts of the Fetch standard the client code relies on: a response with
    a status and a JSON body, a request made of a URL and its init record, and
    the header names the client sets. */
module Http {
  import opened Wrappers

  /** `response.ok` holds exactly for the statuses 200 to 299. */
  predicate IsOk(status: int) {
    200 <= status <= 299
  }

  /** A received response. `body` is what `response.json()` yields, or None
      when the body does not parse and `response.json()` rejects. */
  datatype Response<T> = Response(status: int, body: Option<T>) {
    predicate Ok() {
      IsOk(status)
    }
  }

  /** What a call to `fetch` settles with: a response, or a rejection because
      the network could not deliver one. */
  datatype Reply<T> = Delivered(response: Response<T>) | NetworkError

  /** A plain header record: name to value, names compared exactly as
      JavaScript object keys are (case-sensitively). */
  type Headers = map<string, string>

  /** A `RequestInit` record. `headers` is empty when the caller gave none;
      `httpMethod` is the `method` option; `rest` holds every other option, which the client passes through. */
  datatype RequestInit = RequestInit(
    httpMethod: Option<string>,
    headers: Headers,
    body: Option<string>,
    rest: map<string, string>)

  /** A request as handed to `fetch`: its URL and its options. */
  datatype Request = Request(url: string, init: RequestInit)

  const CONTENT_TYPE: string := "Content-Type"
  const AUTHORIZATION: string := "Authorization"
  const APPLICATION_JSON: string := "application/json"
}
