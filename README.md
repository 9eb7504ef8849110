# Session and authenticated-request core, in Dafny

This project models the client-side session core of a mobile diet-planning
app. The core has three parts:

- **AuthContext** (`auth_context.dfy`, `auth_trace.dfy`): the session state
  machine. A session holds an access token, a refresh token, a token type and
  an expiration. `signIn` exchanges an identity-provider token for a session
  and swallows every failure. `signOut` clears the session. `refresh` applies
  a 60-second lookahead, nulls a session that has no refresh token, and goes
  through a coordinator that keeps at most one backend refresh outstanding.
- **ApiClient** (`api_client.dfy`): `customFetch` and its `get`, `post`,
  `put` and `delete` wrappers. It builds the `Authorization` header from the
  session, joins the base URL and the endpoint, forces the HTTP method, and
  signs out on a 401.
- **UserContext** (`user_context.dfy`): the profile state. It covers the
  profile fetch and its handling of each status, the partial update
  `updateUserData`, and the effect that runs when the access token changes.

`wrappers.dfy` holds Option and Result. `http.dfy` holds the Fetch-standard
records: response, reply, request, and the header names.

How it is modelled:

- State that the source updates in place becomes a class.
  `AuthContext.SessionProvider` holds the stored session and the
  coordinator's `pending` flag. It also keeps a count of joined callers and a
  log of backend refresh calls and store writes. `UserContext.UserProvider`
  holds `userData` and `isLoading`.
- Each `SessionProvider` method ensures `State() == After…(old(State()), …)`.
  `After…` is a pure step function on `AuthState`, and the properties are
  proved about those functions.
- `refresh` is split at its first `await`. `RefreshBegin` covers the
  lookahead, the missing-refresh-token write, and joining or issuing the
  backend call. `RefreshSettle` covers the arrival of the backend's reply.
- `AuthTrace` runs any sequence of these steps. It proves that at most one
  backend refresh is ever in flight. It also proves that `n` callers
  refreshing in the same tick make exactly one backend call, and that its one
  outcome reaches all `n` of them.
- React closures capture the session of the last render. So `refresh`,
  `customFetch` and `fetchUserProfile` take that rendered session as an
  explicit `snapshot` parameter, separate from the stored session.
- Time is an integer count of seconds passed in as `now`. The identity
  provider's result, the network's replies and the base URL are parameters.

## Behaviour worth knowing

- `hooks/useApiClient.ts:8` calls `refresh()` without awaiting it. The
  comment at lines 12-13 assumes the token check comes after the refresh
  was attempted. In fact the request is built from the session read at
  line 9, which is the pre-refresh snapshot. `ApiClient.StaleTokenGoesOut`
  shows the old token going out after the same call's refresh has nulled
  the stored session.
- `AuthContext.tsx:139-141` nulls a session that has no refresh token, but
  does not return. If no refresh is pending, a backend refresh call is then
  issued at line 149 with the empty refresh token (`BeginOutcome` gives
  `Started("")`). If that call succeeds, the session comes back.
- The comment at `AuthContext.tsx:54` says a failed refresh should log the
  user out. Lines 53-55 and 150-152 only throw, so the stored session is
  kept (`AuthContext.AfterSettle`).
- The comment at `AuthContext.tsx:135` speaks of a token that expires "in
  the next 60 seconds". The test at line 136 uses a strict `<`, so an
  expiration exactly 60 seconds away is not refreshed
  (`AuthContext.NeedsRefresh`).
- The catch at `AuthContext.tsx:114-129` only comments on each error, so
  sign-in never raises: every failure is swallowed.
- With a null session, `refresh` throws a type error at line 136
  (`Crashed`). `customFetch` throws a type error when it destructures the
  session at line 9 (`NullSession`). Neither reaches "Not authenticated".

## Model

| member | source | states |
|---|---|---|
| AuthContext.SessionFrom | AuthContext.tsx:155-160 | a stored session reads back as the one token response it was built from, and it is due for a refresh at once exactly when expires_in is below the 60-second lookahead |
| AuthContext.SessionFromRoundTrip | AuthContext.tsx:104-110 | a stored session's expiration is receipt time + expires_in, and a session that reads back as a token response is exactly the session built from it |
| AuthContext.AcceptTokens | AuthContext.tsx:94-102 | a token reply is accepted iff it was delivered, is ok, has a parsable body and a non-empty access_token; a non-ok reply is Rejected, an ok reply whose body cannot be parsed is UnreadableBody, an ok reply without an access_token is MissingAccessToken, and a network failure is Unreachable |
| AuthContext.ExchangeOutcome | AuthContext.tsx:78-129 | sign-in stores a session iff the provider signed in and the exchange was accepted, and it is the session of that one response; cancellation and provider errors store nothing and raise nothing |
| AuthContext.AfterSignIn | AuthContext.tsx:104-113 | a successful sign-in writes the new session with one store write; any failed sign-in leaves the whole state unchanged, with no store write; the coordinator is never touched |
| AuthContext.NeedsRefresh | AuthContext.tsx:135-137 | a session without an expiration is always due; an expiration exactly 60 seconds away is not due (strict comparison), one 59 seconds away is |
| AuthContext.NeedsRefreshStaysDue | AuthContext.tsx:135-137 | once the lookahead test says a refresh is due, it stays due at every later time |
| AuthContext.AtMostOneInFlight | AuthContext.tsx:42 | under the coordinator invariant at most one backend refresh is in flight, and one is in flight iff a refresh is pending |
| AuthContext.WithSession | AuthContext.tsx:73 | a session write replaces the session, adds one store write, changes nothing else, and keeps the coordinator invariant either way |
| AuthContext.AfterSignOut | AuthContext.tsx:131-133 | sign-out nulls the session with one store write and changes nothing else |
| AuthContext.BeginOutcome | AuthContext.tsx:134-148 | refresh crashes iff the rendered session is null; it is a no-op iff expiration is present and >= now + 60; it joins iff a refresh is pending; it issues a backend call iff none is pending, sending the rendered refresh token |
| AuthContext.AfterBegin | AuthContext.tsx:136-148 | the begin step keeps the coordinator invariant; a backend call is counted only when started; a due session with an empty refresh token is nulled, with one store write, and the refresh still goes on to the coordinator; no other step writes the store |
| AuthContext.SettleOutcome | AuthContext.tsx:149-168 | the settled refresh yields the session of the one response or the refusal (not ok, unreadable body, no access_token, network), shared by the starter and all joined callers |
| AuthContext.AfterSettle | AuthContext.tsx:148-168 | settling clears the pending refresh whether it succeeded or failed, writes the new session only on success, and leaves nothing in flight |
| AuthContext.SessionProvider.SetSession | AuthContext.tsx:73 | a session write replaces the session wholesale and is mirrored by one store write |
| AuthContext.SessionProvider.SignIn | AuthContext.tsx:78-130 | the provider's state after sign-in is AfterSignIn of its state before, and the coordinator invariant is kept |
| AuthContext.SessionProvider.SignOut | AuthContext.tsx:131-133 | the provider's state after sign-out is AfterSignOut of its state before |
| AuthContext.SessionProvider.RefreshBegin | AuthContext.tsx:134-148 | the synchronous part of refresh returns BeginOutcome and moves the state to AfterBegin, keeping the coordinator invariant |
| AuthContext.SessionProvider.RefreshSettle | AuthContext.tsx:148-168 | the backend reply returns SettleOutcome and moves the state to AfterSettle; afterwards nothing is pending |
| AuthContext.SessionProvider.constructor | AuthContext.tsx:73 | the provider starts from the stored session with no refresh pending and an empty call log |
| AuthTrace.StepCoordinated | AuthContext.tsx:143-168 | every sign-in, sign-out, refresh or reply step keeps the coordinator invariant |
| AuthTrace.RunCoordinated | AuthContext.tsx:143-168 | for every interleaving of steps, at most one backend refresh is in flight |
| AuthTrace.JoinersIssueNoCall | AuthContext.tsx:144-145 | while a refresh is pending, any number of further callers join it without a backend call, each adding one waiter |
| AuthTrace.ConcurrentRefreshesShareOneCall | AuthContext.tsx:143-168 | n >= 1 callers due in one tick with nothing pending make exactly one backend call; its one outcome reaches all n of them, and the coordinator is free afterwards |
| AuthTrace.FreshSessionIsLeftAlone | AuthContext.tsx:136-137 | any number of refresh calls on a session that is not due change nothing |
| AuthTrace.SignOutDuringRefreshIsOverwritten | AuthContext.tsx:131-168 | a sign-out landing while a refresh is pending does not cancel it; a successful reply afterwards writes the refreshed session (last write wins) |
| ApiClient.AuthHeaders | hooks/useApiClient.ts:17-21 | headers are the caller's plus Content-Type and Authorization; Authorization is always token_type + " " + access_token; Content-Type defaults to application/json unless the caller sets it; every other caller header is kept |
| ApiClient.LowerCaseAuthorizationIsKept | hooks/useApiClient.ts:17-21 | header names are compared exactly, so a caller's lower-case `authorization` survives beside the client's `Authorization` |
| ApiClient.PrepareRequest | hooks/useApiClient.ts:9-26 | a null session is a type error and an empty access token is "Not authenticated", both before any fetch; otherwise the URL is base + "/" + endpoint and only the headers of the caller's options change |
| ApiClient.CallOutcome | hooks/useApiClient.ts:6-38 | no fetch happens iff no request can be built; a 401 raises "Session expired"; any other response is returned unchanged; a network rejection propagates |
| ApiClient.AfterCall | hooks/useApiClient.ts:8-35 | after a call the session state is the un-awaited refresh's begin step, followed by a sign-out exactly on a 401; on a 401 the state is AfterSignOut of the begin step |
| ApiClient.StaleTokenGoesOut | hooks/useApiClient.ts:8-21 | when the same call's refresh has just nulled the session, the request still carries the pre-refresh token |
| ApiClient.GetOptions | hooks/useApiClient.ts:41 | get forces method GET over the caller's method and keeps every other option |
| ApiClient.PostOptions | hooks/useApiClient.ts:42-43 | post forces method POST, sets the body to the serialised payload, and keeps every other option |
| ApiClient.PutOptions | hooks/useApiClient.ts:44-45 | put forces method PUT, sets the body to the serialised payload, and keeps every other option |
| ApiClient.DeleteOptions | hooks/useApiClient.ts:46 | delete forces method DELETE over the caller's method and keeps every other option |
| ApiClient.CustomFetch | hooks/useApiClient.ts:6-38 | a call returns CallOutcome and moves the session machine to AfterCall, keeping the coordinator invariant |
| ApiClient.Get | hooks/useApiClient.ts:41 | a get call is customFetch with GetOptions; any request it sends has method GET |
| ApiClient.Post | hooks/useApiClient.ts:42-43 | a post call is customFetch with PostOptions; any request it sends has method POST and the payload as body |
| ApiClient.Put | hooks/useApiClient.ts:44-45 | a put call is customFetch with PutOptions; any request it sends has method PUT and the payload as body |
| ApiClient.Delete | hooks/useApiClient.ts:46 | a delete call is customFetch with DeleteOptions; any request it sends has method DELETE |
| UserContext.SpreadLookup | UserContext.tsx:96-99 | key by key, `{ ...base, ...data }` takes data's value where data has the key and base's value otherwise |
| UserContext.MergeUserData | UserContext.tsx:95-100 | updateUserData overwrites exactly the supplied keys and keeps every other key of the previous profile (none when it is null) |
| UserContext.LookupDetermines | UserContext.tsx:5-13 | a profile is determined by its values under the seven keys |
| UserContext.MergeIdempotent | UserContext.tsx:95-100 | applying the same partial update twice equals applying it once |
| UserContext.MergeComposes | UserContext.tsx:95-100 | two partial updates in a row equal one update with the later keys laid over the earlier |
| UserContext.FromProfile | UserContext.tsx:72-82 | an ok response sets every one of the seven profile keys to the response's value |
| UserContext.ProfileRoundTrip | UserContext.tsx:72-82 | the stored profile reads back as the response, and a complete profile is the one built from the response it reads back as |
| UserContext.ProfileRequest | UserContext.tsx:64-70 | the profile request is a GET to base + "/profile" with exactly Content-Type application/json and Authorization token_type + " " + access_token, no body and no other option |
| UserContext.UserDataAfterFetch | UserContext.tsx:72-92 | ok sets the response's profile; 404 sets null; any other status keeps the previous profile; a thrown error (network or unreadable body) sets null |
| UserContext.UserProvider.constructor | UserContext.tsx:53-54 | the profile starts null and loading |
| UserContext.UserProvider.FetchUserProfile | UserContext.tsx:56-93 | without an access token, no request is sent, the profile is unchanged and loading is false; with one, the profile request is sent, the profile becomes UserDataAfterFetch, and loading is false |
| UserContext.UserProvider.UpdateUserData | UserContext.tsx:95-100 | the profile becomes MergeUserData of the previous profile and the update; loading is unchanged |
| UserContext.UserProvider.OnAccessTokenChange | UserContext.tsx:103-110 | without an access token, the profile becomes null, loading becomes false and nothing is sent; with one, the effect is the profile fetch |

## Left out

- The identity provider's SDK (`hasPlayServices`, `signIn`, `statusCodes`) is an input value: signed in with an identity token, cancelled, or a coded or uncoded error. The request body sent to `/auth/google` is not modelled, because the outcome depends only on the backend's reply.
- `fetch`, `response.json()` and `JSON.stringify` are inputs. A reply is a response (status and parsed body, or an unparsable body) or a network rejection. Payloads are passed already serialised. A JSON `null` token body counts as unreadable.
- The `useStorageState` store is modelled as a mirror of the session, counted by `storeWrites`. The provider's loading flag while the store is read, and the string form an expiration takes after a reload, are not modelled. The storage module is not part of this model.
- dayjs: instants are whole seconds. Millisecond precision is not modelled.
- React context, hooks, rendering and `useEffect` dependency tracking are not modelled. `OnAccessTokenChange` is the effect body, called when the access token changes. The `useSession` and `useUser` guards only check context wiring. `setUserData` is React's own state setter, passed through unchanged.
- Promise semantics are not modelled. Joined callers' awaits are represented by the waiter count and the shared `Settled` outcome. The unhandled rejection of the un-awaited refresh in `customFetch` is dropped.
- ApiClient.CustomFetch: models sending the request and receiving its reply as one step. Other steps may run in between in the source. The only state change after the reply is a sign-out, which does not depend on the state it lands on.
- `refreshTokenPromise` is module-level in the source, so all providers share it. The model has one provider that owns it.
- ApiClient.AuthHeaders: the Authorization guarantee is about the header record handed to `fetch`. Fetch's `Headers` compares names case-insensitively and would combine a caller's lower-case `authorization` with the client's value into one header; that is not modelled.
- UserContext.UserProvider.FetchUserProfile: models sending the profile request and receiving its reply as one step. It therefore does not show an older fetch resolving after a newer one, nor an `updateUserData` made during a fetch being overwritten when the reply lands.
- Headers are plain records. A `Headers` object or an array of pairs in `options.headers` is not modelled; spreading those behaves differently.
- UserContext.MergeUserData: a key supplied with an explicit `undefined` value, which a spread copies over, is not modelled. A partial update has each key either absent or present with a value.
- Numbers (weight, height, goal, activity level, `expires_in`) are integers. Floating point is not modelled.
- `console.error` logging in the profile fetch is left out.
