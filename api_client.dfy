/** The authenticated request client of hooks/useApiClient.ts: `customFetch`
    and its `get`, `post`, `put` and `delete` wrappers.

    The client reads the session its caller rendered (`snapshot`), starts a
    refresh without awaiting it, and builds the request from that snapshot.
    The base URL, the network's reply and the current time are parameters;
    a payload is passed already serialised. */
module ApiClient {
  import opened Wrappers
  import opened Http
  import opened AuthContext

  /** Errors the client raises. NullSession is the type error thrown when the
      rendered session is null and cannot be destructured. */
  datatype ApiError = NullSession | NotAuthenticated | SessionExpired | NetworkFailed

  /** One client call: the request handed to `fetch`, None when the call
      failed before any fetch, and what the call resolves or rejects with. */
  datatype ApiCall = ApiCall(sent: Option<Request>, result: Result<Response<string>, ApiError>)

  /** The header record of a request: JSON content type unless the caller
      sets one, the caller's headers, and the bearer credential, which no
      caller header can replace. */
  function AuthHeaders(caller: Headers, tokenType: string, accessToken: string): (h: Headers)
    ensures h.Keys == caller.Keys + {CONTENT_TYPE, AUTHORIZATION}
    ensures h[AUTHORIZATION] == tokenType + " " + accessToken
    ensures h[CONTENT_TYPE] == if CONTENT_TYPE in caller then caller[CONTENT_TYPE] else APPLICATION_JSON
    ensures forall k :: k in caller && k != AUTHORIZATION ==> h[k] == caller[k]
  {
    map[CONTENT_TYPE := APPLICATION_JSON] + caller + map[AUTHORIZATION := tokenType + " " + accessToken]
  }

  /** Header names are compared exactly: a caller's lower-case
      `authorization` header is kept beside the client's `Authorization`. */
  lemma LowerCaseAuthorizationIsKept(tokenType: string, accessToken: string, forged: string)
    ensures var h := AuthHeaders(map["authorization" := forged], tokenType, accessToken);
      && h["authorization"] == forged
      && h[AUTHORIZATION] == tokenType + " " + accessToken
  {
  }

  /** The request `customFetch` builds from the rendered session, or the
      error it throws before any fetch: a null session cannot be
      destructured, and an empty access token is "Not authenticated". The URL
      is the base, a slash and the endpoint; every option other than the
      headers is passed through. */
  function PrepareRequest(snapshot: Option<Session>, base: string, endpoint: string, options: RequestInit)
    : (r: Result<Request, ApiError>)
    ensures snapshot.None? ==> r == Failure(NullSession)
    ensures snapshot.Some? && snapshot.value.accessToken == "" ==> r == Failure(NotAuthenticated)
    ensures r.Success? <==> snapshot.Some? && snapshot.value.accessToken != ""
    ensures r.Success? ==>
      && r.value.url == base + "/" + endpoint
      && r.value.init == options.(headers := r.value.init.headers)
      && r.value.init.headers == AuthHeaders(options.headers, snapshot.value.tokenType, snapshot.value.accessToken)
      && r.value.init.headers[AUTHORIZATION] == snapshot.value.tokenType + " " + snapshot.value.accessToken
  {
    match snapshot
    case None => Failure(NullSession)
    case Some(s) =>
      if s.accessToken == "" then Failure(NotAuthenticated)
      else
        var headers := AuthHeaders(options.headers, s.tokenType, s.accessToken);
        Success(Request(base + "/" + endpoint, options.(headers := headers)))
  }

  /** What a `customFetch` call comes to. It fails before any fetch when no
      request can be built; a 401 is "Session expired"; any other response is
      returned exactly as received; a network rejection propagates. */
  function CallOutcome(
    snapshot: Option<Session>, base: string, endpoint: string, options: RequestInit, reply: Reply<string>)
    : (c: ApiCall)
    ensures c.sent.None? <==> PrepareRequest(snapshot, base, endpoint, options).Failure?
    ensures c.sent.None? ==> c.result == Failure(PrepareRequest(snapshot, base, endpoint, options).error)
    ensures c.sent.Some? ==> c.sent.value == PrepareRequest(snapshot, base, endpoint, options).value
    ensures c.sent.Some? && reply.Delivered? && reply.response.status == 401 ==>
      c.result == Failure(SessionExpired)
    ensures c.sent.Some? && reply.Delivered? && reply.response.status != 401 ==>
      c.result == Success(reply.response)
    ensures c.sent.Some? && reply.NetworkError? ==> c.result == Failure(NetworkFailed)
  {
    match PrepareRequest(snapshot, base, endpoint, options)
    case Failure(e) => ApiCall(None, Failure(e))
    case Success(request) =>
      match reply
      case NetworkError => ApiCall(Some(request), Failure(NetworkFailed))
      case Delivered(response) =>
        if response.status == 401 then ApiCall(Some(request), Failure(SessionExpired))
        else ApiCall(Some(request), Success(response))
  }

  /** The session machine's state after a `customFetch` call: the refresh
      it started without awaiting, then a sign-out when the response is a
      401. */
  function AfterCall(st: AuthState, snapshot: Option<Session>, now: int, c: ApiCall): (st': AuthState)
    ensures c.result == Failure(SessionExpired) ==> st' == AfterSignOut(AfterBegin(st, snapshot, now))
    ensures c.result == Failure(SessionExpired) ==> st'.session.None?
    ensures c.result != Failure(SessionExpired) ==> st' == AfterBegin(st, snapshot, now)
  {
    var begun := AfterBegin(st, snapshot, now);
    if c.result == Failure(SessionExpired) then AfterSignOut(begun) else begun
  }

  /** The request is built from the rendered session even when the refresh
      started by the same call has just nulled the stored session: the
      pre-refresh token goes out. */
  lemma StaleTokenGoesOut(st: AuthState, snapshot: Option<Session>, now: int, base: string, endpoint: string,
                          options: RequestInit, reply: Reply<string>)
    requires snapshot.Some? && snapshot.value.accessToken != ""
    requires NeedsRefresh(snapshot.value, now) && snapshot.value.refreshToken == ""
    ensures AfterBegin(st, snapshot, now).session.None?
    ensures CallOutcome(snapshot, base, endpoint, options, reply).sent.Some?
    ensures CallOutcome(snapshot, base, endpoint, options, reply).sent.value.init.headers[AUTHORIZATION]
      == snapshot.value.tokenType + " " + snapshot.value.accessToken
  {
  }

  /** The options `get` passes on: the caller's, with the method forced. */
  function GetOptions(options: RequestInit): (o: RequestInit)
    ensures o.httpMethod == Some("GET")
    ensures o.(httpMethod := options.httpMethod) == options
  {
    options.(httpMethod := Some("GET"))
  }

  /** The options `delete` passes on: the caller's, with the method forced. */
  function DeleteOptions(options: RequestInit): (o: RequestInit)
    ensures o.httpMethod == Some("DELETE")
    ensures o.(httpMethod := options.httpMethod) == options
  {
    options.(httpMethod := Some("DELETE"))
  }

  /** The options `post` passes on: the caller's, with the method forced and
      the body replaced by the serialised payload. */
  function PostOptions(options: RequestInit, payload: string): (o: RequestInit)
    ensures o.httpMethod == Some("POST") && o.body == Some(payload)
    ensures o.(httpMethod := options.httpMethod, body := options.body) == options
  {
    options.(httpMethod := Some("POST"), body := Some(payload))
  }

  /** The options `put` passes on: the caller's, with the method forced and
      the body replaced by the serialised payload. */
  function PutOptions(options: RequestInit, payload: string): (o: RequestInit)
    ensures o.httpMethod == Some("PUT") && o.body == Some(payload)
    ensures o.(httpMethod := options.httpMethod, body := options.body) == options
  {
    options.(httpMethod := Some("PUT"), body := Some(payload))
  }

  /** `customFetch`: starts a refresh without awaiting it, builds the request
      from the rendered session, and signs out on a 401. */
  method CustomFetch(
    auth: SessionProvider, snapshot: Option<Session>, base: string, endpoint: string,
    options: RequestInit, now: int, reply: Reply<string>)
    returns (c: ApiCall)
    requires auth.Valid()
    modifies auth
    ensures auth.Valid()
    ensures c == CallOutcome(snapshot, base, endpoint, options, reply)
    ensures auth.State() == AfterCall(old(auth.State()), snapshot, now, c)
  {
    // The refresh promise is not awaited: its outcome is dropped here.
    var begun := auth.RefreshBegin(snapshot, now);
    c := CallOutcome(snapshot, base, endpoint, options, reply);
    if c.result == Failure(SessionExpired) {
      auth.SignOut();
    }
  }

  method Get(
    auth: SessionProvider, snapshot: Option<Session>, base: string, endpoint: string,
    options: RequestInit, now: int, reply: Reply<string>)
    returns (c: ApiCall)
    requires auth.Valid()
    modifies auth
    ensures auth.Valid()
    ensures c == CallOutcome(snapshot, base, endpoint, GetOptions(options), reply)
    ensures c.sent.Some? ==> c.sent.value.init.httpMethod == Some("GET")
    ensures auth.State() == AfterCall(old(auth.State()), snapshot, now, c)
  {
    c := CustomFetch(auth, snapshot, base, endpoint, GetOptions(options), now, reply);
  }

  method Post(
    auth: SessionProvider, snapshot: Option<Session>, base: string, endpoint: string,
    payload: string, options: RequestInit, now: int, reply: Reply<string>)
    returns (c: ApiCall)
    requires auth.Valid()
    modifies auth
    ensures auth.Valid()
    ensures c == CallOutcome(snapshot, base, endpoint, PostOptions(options, payload), reply)
    ensures c.sent.Some? ==> c.sent.value.init.httpMethod == Some("POST") && c.sent.value.init.body == Some(payload)
    ensures auth.State() == AfterCall(old(auth.State()), snapshot, now, c)
  {
    c := CustomFetch(auth, snapshot, base, endpoint, PostOptions(options, payload), now, reply);
  }

  method Put(
    auth: SessionProvider, snapshot: Option<Session>, base: string, endpoint: string,
    payload: string, options: RequestInit, now: int, reply: Reply<string>)
    returns (c: ApiCall)
    requires auth.Valid()
    modifies auth
    ensures auth.Valid()
    ensures c == CallOutcome(snapshot, base, endpoint, PutOptions(options, payload), reply)
    ensures c.sent.Some? ==> c.sent.value.init.httpMethod == Some("PUT") && c.sent.value.init.body == Some(payload)
    ensures auth.State() == AfterCall(old(auth.State()), snapshot, now, c)
  {
    c := CustomFetch(auth, snapshot, base, endpoint, PutOptions(options, payload), now, reply);
  }

  method Delete(
    auth: SessionProvider, snapshot: Option<Session>, base: string, endpoint: string,
    options: RequestInit, now: int, reply: Reply<string>)
    returns (c: ApiCall)
    requires auth.Valid()
    modifies auth
    ensures auth.Valid()
    ensures c == CallOutcome(snapshot, base, endpoint, DeleteOptions(options), reply)
    ensures c.sent.Some? ==> c.sent.value.init.httpMethod == Some("DELETE")
    ensures auth.State() == AfterCall(old(auth.State()), snapshot, now, c)
  {
    c := CustomFetch(auth, snapshot, base, endpoint, DeleteOptions(options), now, reply);
  }
}
