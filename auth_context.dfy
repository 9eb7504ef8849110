/** The session and token lifecycle of AuthContext.tsx: the session record, the
    sign-in exchange, sign-out, and the refresh operation with its coordinator
    that lets at most one backend refresh be outstanding.

    Time is a count of seconds passed in as `now`. The refresh coordinator's
    promise is the `pending` flag of SessionProvider; the model also keeps the
    number of callers waiting on it and a log of backend refresh calls issued
    and settled, so that "at most one in flight" can be stated. */
module AuthContext {
  import opened Wrappers
  import opened Http

  /** A refresh is due when the session expires within this many seconds. */
  const LOOKAHEAD: int := 60

  /** The stored session. An empty string stands for a missing (falsy) token;
      `expiration` is an absolute instant, None when it is missing. */
  datatype Session = Session(
    accessToken: string,
    refreshToken: string,
    tokenType: string,
    expiration: Option<int>)

  /** The body the backend returns from `/auth/google` and `/auth/refresh`. */
  datatype TokenResponse = TokenResponse(
    accessToken: string,
    refreshToken: string,
    tokenType: string,
    expiresIn: int)

  /** The session built from one backend token response received at `now`:
      the response can be read back from it, and it is due for a refresh at
      once exactly when the response grants less than the lookahead. */
  function SessionFrom(t: TokenResponse, now: int): (s: Session)
    ensures ResponseOf(s, now) == Some(t)
    ensures NeedsRefresh(s, now) <==> t.expiresIn < LOOKAHEAD
  {
    Session(t.accessToken, t.refreshToken, t.tokenType, Some(now + t.expiresIn))
  }

  /** The token response a session was built from, given the instant it was
      built at; None for a session without an expiration. */
  function ResponseOf(s: Session, issuedAt: int): Option<TokenResponse> {
    match s.expiration
    case None => None
    case Some(e) => Some(TokenResponse(s.accessToken, s.refreshToken, s.tokenType, e - issuedAt))
  }

  /** The other direction of the round trip: the expiration of a stored
      session is the receipt time plus `expires_in`, and a session that reads
      back as a response is the session built from that response. */
  lemma SessionFromRoundTrip(t: TokenResponse, now: int, s: Session)
    ensures SessionFrom(t, now).expiration == Some(now + t.expiresIn)
    ensures ResponseOf(s, now) == Some(t) ==> s == SessionFrom(t, now)
  {
  }

  /** Why a backend token reply was refused. */
  datatype TokenError =
    | Rejected            // the response was not ok
    | UnreadableBody      // `response.json()` rejected
    | MissingAccessToken  // the body has no (or an empty) access_token
    | Unreachable         // `fetch` itself rejected

  /** The checks applied to a backend token reply, in the order the source
      applies them: status, body, access token. */
  function AcceptTokens(reply: Reply<TokenResponse>): (r: Result<TokenResponse, TokenError>)
    ensures r.Success? <==>
      && reply.Delivered?
      && reply.response.Ok()
      && reply.response.body.Some?
      && reply.response.body.value.accessToken != ""
    ensures r.Success? ==> r.value == reply.response.body.value
    ensures reply.NetworkError? ==> r == Failure(Unreachable)
    ensures reply.Delivered? && !reply.response.Ok() ==> r == Failure(Rejected)
    ensures reply.Delivered? && reply.response.Ok() && reply.response.body.None? ==>
      r == Failure(UnreadableBody)
    ensures reply.Delivered? && reply.response.Ok() && reply.response.body.Some? ==>
      (reply.response.body.value.accessToken == "" ==> r == Failure(MissingAccessToken))
  {
    match reply
    case NetworkError => Failure(Unreachable)
    case Delivered(response) =>
      if !response.Ok() then Failure(Rejected)
      else if response.body.None? then Failure(UnreadableBody)
      else if response.body.value.accessToken == "" then Failure(MissingAccessToken)
      else Success(response.body.value)
  }

  /** A coded error thrown by the identity provider's SDK, or an error
      without a code. */
  datatype SdkError = InProgress | PlayServicesNotAvailable | OtherCode(code: string) | Uncoded

  /** What the identity provider's `hasPlayServices` and `signIn` yield. */
  datatype GoogleResult = Signed(idToken: string) | Cancelled | Failed(error: SdkError)

  /** Why a sign-in stored nothing. */
  datatype SignInFailure = UserCancelled | Provider(sdkError: SdkError) | Exchange(tokenError: TokenError)

  /** What one sign-in attempt comes to. Every failure is caught and
      swallowed, so this is never raised to the caller. */
  datatype SignInOutcome = Stored(session: Session) | NotSignedIn(reason: SignInFailure)

  /** The sign-in decision: a session is stored exactly when the provider
      produced an identity token and the backend exchange was accepted, and
      it is then the session of the backend's one response. */
  function ExchangeOutcome(google: GoogleResult, backend: Reply<TokenResponse>, now: int): (r: SignInOutcome)
    ensures r.Stored? <==> google.Signed? && AcceptTokens(backend).Success?
    ensures r.Stored? ==> r.session == SessionFrom(backend.response.body.value, now)
    ensures google.Cancelled? ==> r == NotSignedIn(UserCancelled)
    ensures google.Failed? ==> r == NotSignedIn(Provider(google.error))
    ensures google.Signed? && backend.Delivered? && !backend.response.Ok() ==>
      r == NotSignedIn(Exchange(Rejected))
  {
    match google
    case Cancelled => NotSignedIn(UserCancelled)
    case Failed(e) => NotSignedIn(Provider(e))
    case Signed(_) =>
      match AcceptTokens(backend)
      case Success(t) => Stored(SessionFrom(t, now))
      case Failure(e) => NotSignedIn(Exchange(e))
  }

  /** The lookahead test: a refresh is needed when the expiration is missing
      or falls strictly before `now + LOOKAHEAD`. A session without an
      expiration is always due; at the boundary, an expiration exactly
      `LOOKAHEAD` seconds away is not due and one a second earlier is. */
  predicate NeedsRefresh(s: Session, now: int): (due: bool)
    ensures s.expiration.None? ==> due
    ensures s.expiration == Some(now + LOOKAHEAD) ==> !due
    ensures s.expiration == Some(now + LOOKAHEAD - 1) ==> due
  {
    s.expiration.None? || s.expiration.value < now + LOOKAHEAD
  }

  /** Once a refresh is due it stays due as time passes. */
  lemma NeedsRefreshStaysDue(s: Session, now: int, later: int)
    requires NeedsRefresh(s, now) && now <= later
    ensures NeedsRefresh(s, later)
  {
  }

  /** The whole state of the session machine: the stored session, the
      coordinator (whether a refresh is pending and how many callers joined
      it), and the log of backend refresh calls and of store writes. */
  datatype AuthState = AuthState(
    session: Option<Session>,
    pending: bool,
    waiters: nat,
    refreshCalls: nat,
    settledCalls: nat,
    storeWrites: nat)

  /** The coordinator's invariant: a refresh is pending exactly while one
      backend call is issued and not yet settled, and callers wait only on a
      pending refresh. */
  predicate Coordinated(st: AuthState) {
    && st.refreshCalls == st.settledCalls + (if st.pending then 1 else 0)
    && (!st.pending ==> st.waiters == 0)
  }

  /** Backend refresh calls issued and not yet settled. */
  function InFlight(st: AuthState): int {
    st.refreshCalls - st.settledCalls
  }

  /** Under the coordinator's invariant at most one backend refresh is in
      flight, and one is in flight exactly while a refresh is pending. */
  lemma AtMostOneInFlight(st: AuthState)
    requires Coordinated(st)
    ensures 0 <= InFlight(st) <= 1
    ensures InFlight(st) == 1 <==> st.pending
  {
  }

  /** `setSession`: the store mirrors every write. */
  function WithSession(st: AuthState, s: Option<Session>): (st': AuthState)
    ensures st'.session == s && st'.storeWrites == st.storeWrites + 1
    ensures st'.(session := st.session, storeWrites := st.storeWrites) == st
    ensures Coordinated(st') <==> Coordinated(st)
  {
    st.(session := s, storeWrites := st.storeWrites + 1)
  }

  /** The state after a sign-in attempt: the exchanged session is written
      on success; on every failure nothing at all changes. */
  function AfterSignIn(st: AuthState, google: GoogleResult, backend: Reply<TokenResponse>, now: int): (st': AuthState)
    ensures ExchangeOutcome(google, backend, now).Stored? ==>
      && st'.session == Some(SessionFrom(backend.response.body.value, now))
      && st'.storeWrites == st.storeWrites + 1
    ensures ExchangeOutcome(google, backend, now).NotSignedIn? ==> st' == st
    ensures st'.pending == st.pending && st'.waiters == st.waiters
    ensures st'.refreshCalls == st.refreshCalls && st'.settledCalls == st.settledCalls
  {
    match ExchangeOutcome(google, backend, now)
    case Stored(s) => WithSession(st, Some(s))
    case NotSignedIn(_) => st
  }

  /** The state after sign-out: no session, one store write, nothing else. */
  function AfterSignOut(st: AuthState): (st': AuthState)
    ensures st'.session.None?
    ensures st' == st.(session := None, storeWrites := st.storeWrites + 1)
  {
    WithSession(st, None)
  }

  /** How the synchronous part of `refresh` ends, up to its first await.
      Crashed: the snapshot is null and reading its expiration throws. */
  datatype Begin = UpToDate | Joined | Started(refreshToken: string) | Crashed

  /** The outcome of the synchronous part of `refresh`, for a caller whose
      rendered session is `snapshot`. */
  function BeginOutcome(st: AuthState, snapshot: Option<Session>, now: int): (b: Begin)
    ensures b == Crashed <==> snapshot.None?
    ensures b == UpToDate <==> snapshot.Some? && !NeedsRefresh(snapshot.value, now)
    ensures b == Joined <==> snapshot.Some? && NeedsRefresh(snapshot.value, now) && st.pending
    ensures b.Started? <==> snapshot.Some? && NeedsRefresh(snapshot.value, now) && !st.pending
    ensures b.Started? ==> b.refreshToken == snapshot.value.refreshToken
  {
    if snapshot.None? then Crashed
    else if !NeedsRefresh(snapshot.value, now) then UpToDate
    else if st.pending then Joined
    else Started(snapshot.value.refreshToken)
  }

  /** The state after the synchronous part of `refresh`. A missing refresh
      token nulls the session and the refresh still goes on to the
      coordinator; a new backend call is issued only when none is pending. */
  function AfterBegin(st: AuthState, snapshot: Option<Session>, now: int): (st': AuthState)
    ensures Coordinated(st) ==> Coordinated(st')
    ensures BeginOutcome(st, snapshot, now) in {UpToDate, Crashed} ==> st' == st
    ensures st'.refreshCalls == st.refreshCalls + (if BeginOutcome(st, snapshot, now).Started? then 1 else 0)
    ensures st'.settledCalls == st.settledCalls
    ensures st'.pending == (st.pending || BeginOutcome(st, snapshot, now).Started?)
    ensures st'.waiters == st.waiters + (if BeginOutcome(st, snapshot, now) == Joined then 1 else 0)
    ensures st'.session ==
      if snapshot.Some? && NeedsRefresh(snapshot.value, now) && snapshot.value.refreshToken == ""
      then None else st.session
    ensures st'.storeWrites == st.storeWrites +
      (if snapshot.Some? && NeedsRefresh(snapshot.value, now) && snapshot.value.refreshToken == "" then 1 else 0)
  {
    if snapshot.None? || !NeedsRefresh(snapshot.value, now) then st
    else
      var cleared := if snapshot.value.refreshToken == "" then WithSession(st, None) else st;
      if cleared.pending then cleared.(waiters := cleared.waiters + 1)
      else cleared.(pending := true, refreshCalls := cleared.refreshCalls + 1)
  }

  /** How a backend refresh settles: the new session or the error, shared by
      the starter and every caller that joined it. */
  datatype Settled = Settled(outcome: Result<Session, TokenError>, observers: nat)

  /** The shared outcome of the pending refresh: the session of the one
      backend response on success, the refusal otherwise; it reaches the
      starter and every caller that joined. */
  function SettleOutcome(st: AuthState, reply: Reply<TokenResponse>, now: int): (r: Settled)
    requires st.pending
    ensures r.outcome.Success? <==> AcceptTokens(reply).Success?
    ensures r.outcome.Success? ==> r.outcome.value == SessionFrom(reply.response.body.value, now)
    ensures r.outcome.Failure? ==> r.outcome.error == AcceptTokens(reply).error
    ensures r.observers == st.waiters + 1
  {
    match AcceptTokens(reply)
    case Success(t) => Settled(Success(SessionFrom(t, now)), st.waiters + 1)
    case Failure(e) => Settled(Failure(e), st.waiters + 1)
  }

  /** The state once the pending refresh settles: the new session is written
      on success only, and the pending refresh is cleared either way. */
  function AfterSettle(st: AuthState, reply: Reply<TokenResponse>, now: int): (st': AuthState)
    requires st.pending
    ensures Coordinated(st) ==> Coordinated(st') && InFlight(st') == 0
    ensures !st'.pending && st'.waiters == 0
    ensures st'.refreshCalls == st.refreshCalls && st'.settledCalls == st.settledCalls + 1
    ensures AcceptTokens(reply).Success? ==>
      st'.session == Some(SessionFrom(reply.response.body.value, now)) && st'.storeWrites == st.storeWrites + 1
    ensures AcceptTokens(reply).Failure? ==>
      st'.session == st.session && st'.storeWrites == st.storeWrites
  {
    var cleared := st.(pending := false, waiters := 0, settledCalls := st.settledCalls + 1);
    match AcceptTokens(reply)
    case Success(t) => WithSession(cleared, Some(SessionFrom(t, now)))
    case Failure(_) => cleared
  }

  /** The session provider. Its fields are the stored session (mirrored by
      the store), the coordinator's pending refresh and the callers joined
      to it, and the log of backend refresh calls and store writes. */
  class SessionProvider {
    var session: Option<Session>
    var pending: bool
    var waiters: nat
    var refreshCalls: nat
    var settledCalls: nat
    var storeWrites: nat

    function State(): AuthState
      reads this
    {
      AuthState(session, pending, waiters, refreshCalls, settledCalls, storeWrites)
    }

    predicate Valid()
      reads this
    {
      Coordinated(State())
    }

    /** Starts from the session read once from the store. */
    constructor (stored: Option<Session>)
      ensures Valid()
      ensures State() == AuthState(stored, false, 0, 0, 0, 0)
    {
      session := stored;
      pending := false;
      waiters := 0;
      refreshCalls := 0;
      settledCalls := 0;
      storeWrites := 0;
    }

    /** `setSession`: replaces the session wholesale and writes the store. */
    method SetSession(s: Option<Session>)
      modifies this
      ensures State() == WithSession(old(State()), s)
    {
      session := s;
      storeWrites := storeWrites + 1;
    }

    /** `signIn`: never raises; stores a session only when the provider and
        the backend exchange both succeed. */
    method SignIn(google: GoogleResult, backend: Reply<TokenResponse>, now: int)
      requires Valid()
      modifies this
      ensures Valid()
      ensures State() == AfterSignIn(old(State()), google, backend, now)
    {
      var outcome := ExchangeOutcome(google, backend, now);
      if outcome.Stored? {
        SetSession(Some(outcome.session));
      }
    }

    /** `signOut`: clears the session unconditionally. */
    method SignOut()
      requires Valid()
      modifies this
      ensures Valid()
      ensures State() == AfterSignOut(old(State()))
    {
      SetSession(None);
    }

    /** The synchronous part of `refresh`, up to its first await, for a
        caller whose rendered session is `snapshot`: the lookahead test, the
        missing-refresh-token write, then joining the pending refresh or
        issuing the backend call. */
    method RefreshBegin(snapshot: Option<Session>, now: int) returns (b: Begin)
      requires Valid()
      modifies this
      ensures Valid()
      ensures b == BeginOutcome(old(State()), snapshot, now)
      ensures State() == AfterBegin(old(State()), snapshot, now)
    {
      if snapshot.None? {
        return Crashed;
      }
      var s := snapshot.value;
      if !NeedsRefresh(s, now) {
        return UpToDate;
      }
      if s.refreshToken == "" {
        SetSession(None);
      }
      if pending {
        waiters := waiters + 1;
        b := Joined;
      } else {
        pending := true;
        refreshCalls := refreshCalls + 1;
        b := Started(s.refreshToken);
      }
    }

    /** The backend's reply to the pending refresh call arrives: the session
        is written on success, and the starter clears the pending refresh
        whether it succeeded or failed. */
    method RefreshSettle(reply: Reply<TokenResponse>, now: int) returns (r: Settled)
      requires Valid() && pending
      modifies this
      ensures Valid() && !pending
      ensures r == SettleOutcome(old(State()), reply, now)
      ensures State() == AfterSettle(old(State()), reply, now)
    {
      r := SettleOutcome(State(), reply, now);
      if r.outcome.Success? {
        SetSession(Some(r.outcome.value));
      }
      pending := false;
      waiters := 0;
      settledCalls := settledCalls + 1;
    }
  }
}
