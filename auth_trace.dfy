/** Sequential interleavings of the session machine's steps. Each event is
    one step of AuthContext.tsx as some caller performs it; a run applies a
    sequence of them. The lemmas show that the coordinator keeps at most one
    backend refresh in flight whatever the interleaving, and that a burst of
    refresh callers sharing one rendered session makes exactly one backend
    call whose one outcome reaches all of them. */
module AuthTrace {
  import opened Wrappers
  import opened Http
  import opened AuthContext

  datatype Event =
    | SignInEvent(google: GoogleResult, backend: Reply<TokenResponse>, now: int)
    | SignOutEvent
    | RefreshEvent(snapshot: Option<Session>, now: int)
    | SettleEvent(reply: Reply<TokenResponse>, now: int)

  /** One step. A backend reply can only arrive for a refresh that was
      issued, so a settle event with nothing pending changes nothing. */
  function Step(st: AuthState, e: Event): AuthState {
    match e
    case SignInEvent(google, backend, now) => AfterSignIn(st, google, backend, now)
    case SignOutEvent => AfterSignOut(st)
    case RefreshEvent(snapshot, now) => AfterBegin(st, snapshot, now)
    case SettleEvent(reply, now) => if st.pending then AfterSettle(st, reply, now) else st
  }

  function Run(st: AuthState, evs: seq<Event>): AuthState
    decreases |evs|
  {
    if evs == [] then st else Run(Step(st, evs[0]), evs[1..])
  }

  /** Every step keeps the coordinator's invariant. */
  lemma StepCoordinated(st: AuthState, e: Event)
    requires Coordinated(st)
    ensures Coordinated(Step(st, e))
  {
  }

  /** Whatever the interleaving of sign-ins, sign-outs, refreshes and
      replies, at most one backend refresh is ever in flight. */
  lemma {:induction false} RunCoordinated(st: AuthState, evs: seq<Event>)
    requires Coordinated(st)
    ensures Coordinated(Run(st, evs))
    ensures 0 <= InFlight(Run(st, evs)) <= 1
    decreases |evs|
  {
    if evs != [] {
      StepCoordinated(st, evs[0]);
      RunCoordinated(Step(st, evs[0]), evs[1..]);
    }
  }

  /** Running two sequences one after the other is running their
      concatenation. */
  lemma {:induction false} RunAppend(st: AuthState, a: seq<Event>, b: seq<Event>)
    ensures Run(st, a + b) == Run(Run(st, a), b)
    decreases |a|
  {
    if a == [] {
      assert a + b == b;
    } else {
      assert (a + b)[0] == a[0];
      assert (a + b)[1..] == a[1..] + b;
      RunAppend(Step(st, a[0]), a[1..], b);
    }
  }

  /** `n` callers that call `refresh` in the same tick, all holding the same
      rendered session. */
  function Burst(snapshot: Option<Session>, now: int, n: nat): seq<Event>
    decreases n
  {
    if n == 0 then [] else [RefreshEvent(snapshot, now)] + Burst(snapshot, now, n - 1)
  }

  /** While a refresh is pending, every further caller joins it: no backend
      call is issued and the number of waiters grows by one per caller. */
  lemma {:induction false} JoinersIssueNoCall(st: AuthState, snapshot: Option<Session>, now: int, k: nat)
    requires Coordinated(st) && st.pending
    requires snapshot.Some? && NeedsRefresh(snapshot.value, now)
    ensures Run(st, Burst(snapshot, now, k)).pending
    ensures Run(st, Burst(snapshot, now, k)).refreshCalls == st.refreshCalls
    ensures Run(st, Burst(snapshot, now, k)).settledCalls == st.settledCalls
    ensures Run(st, Burst(snapshot, now, k)).waiters == st.waiters + k
    decreases k
  {
    if k > 0 {
      var evs := Burst(snapshot, now, k);
      assert evs[0] == RefreshEvent(snapshot, now);
      assert evs[1..] == Burst(snapshot, now, k - 1);
      JoinersIssueNoCall(Step(st, evs[0]), snapshot, now, k - 1);
    }
  }

  /** At-most-one refresh: `n >= 1` callers due for a refresh with nothing
      pending make exactly one backend call; when it settles, its one outcome
      reaches all `n` of them and the coordinator is free again. */
  lemma ConcurrentRefreshesShareOneCall(
    st: AuthState, snapshot: Option<Session>, now: int, n: nat,
    reply: Reply<TokenResponse>, later: int)
    requires Coordinated(st) && !st.pending && n >= 1
    requires snapshot.Some? && NeedsRefresh(snapshot.value, now)
    ensures Run(st, Burst(snapshot, now, n)).pending
    ensures Run(st, Burst(snapshot, now, n)).refreshCalls == st.refreshCalls + 1
    ensures SettleOutcome(Run(st, Burst(snapshot, now, n)), reply, later).observers == n
    ensures Run(st, Burst(snapshot, now, n) + [SettleEvent(reply, later)]).refreshCalls == st.refreshCalls + 1
    ensures !Run(st, Burst(snapshot, now, n) + [SettleEvent(reply, later)]).pending
  {
    var evs := Burst(snapshot, now, n);
    assert evs[0] == RefreshEvent(snapshot, now);
    assert evs[1..] == Burst(snapshot, now, n - 1);
    var first := Step(st, evs[0]);
    assert first.pending && first.waiters == 0 && first.refreshCalls == st.refreshCalls + 1;
    JoinersIssueNoCall(first, snapshot, now, n - 1);
    var mid := Run(st, evs);
    RunAppend(st, evs, [SettleEvent(reply, later)]);
    assert Run(mid, [SettleEvent(reply, later)]) == AfterSettle(mid, reply, later);
  }

  /** The lookahead: callers whose rendered session is not due change
      nothing and make no backend call, however many they are. */
  lemma {:induction false} FreshSessionIsLeftAlone(st: AuthState, snapshot: Option<Session>, now: int, n: nat)
    requires snapshot.Some? && !NeedsRefresh(snapshot.value, now)
    ensures Run(st, Burst(snapshot, now, n)) == st
    decreases n
  {
    if n > 0 {
      var evs := Burst(snapshot, now, n);
      assert evs[0] == RefreshEvent(snapshot, now);
      assert evs[1..] == Burst(snapshot, now, n - 1);
      FreshSessionIsLeftAlone(st, snapshot, now, n - 1);
    }
  }

  /** Last write wins: a sign-out that lands while a refresh is pending does
      not cancel it, and a successful reply afterwards restores a session. */
  lemma SignOutDuringRefreshIsOverwritten(
    st: AuthState, snapshot: Option<Session>, now: int, reply: Reply<TokenResponse>, later: int)
    requires Coordinated(st) && !st.pending
    requires snapshot.Some? && NeedsRefresh(snapshot.value, now)
    requires AcceptTokens(reply).Success?
    ensures Run(st, [RefreshEvent(snapshot, now), SignOutEvent, SettleEvent(reply, later)]).session
      == Some(SessionFrom(reply.response.body.value, later))
  {
    var s1 := Step(st, RefreshEvent(snapshot, now));
    var s2 := Step(s1, SignOutEvent);
    assert s2.pending;
    var evs := [RefreshEvent(snapshot, now), SignOutEvent, SettleEvent(reply, later)];
    assert evs[1..] == [SignOutEvent, SettleEvent(reply, later)];
    assert evs[1..][1..] == [SettleEvent(reply, later)];
    var s3 := AfterSettle(s2, reply, later);
    assert Run(s2, [SettleEvent(reply, later)]) == Run(s3, []);
    assert Run(st, evs) == Run(s2, [SettleEvent(reply, later)]);
  }
}
