/** The user profile state of UserContext.tsx: the profile record, the
    partial update that overlays fields on the previous profile, the profile
    fetch and its handling of each response, and the effect that runs when
    the session's access token changes.

    Numbers are modelled as integers. The session is the one the provider
    rendered (`snapshot`); the base URL and the network's reply are
    parameters. */
module UserContext {
  import opened Wrappers
  import opened Http
  import opened AuthContext

  /** The profile as the provider holds it: every field optional (None when
      the key is absent). `planId` may be present and null. */
  datatype UserData = UserData(
    planId: Option<Option<string>>,
    weight: Option<int>,
    height: Option<int>,
    gender: Option<string>,
    dateOfBirth: Option<string>,
    goal: Option<int>,
    activityLevel: Option<int>)

  /** The body of a successful `/profile` response: every field present. */
  datatype ProfileResponse = ProfileResponse(
    planId: Option<string>,
    weight: int,
    height: int,
    gender: string,
    dateOfBirth: string,
    goal: int,
    activityLevel: int)

  /** The seven keys of a profile, and the values they hold. */
  datatype Field = PlanId | Weight | Height | Gender | DateOfBirth | Goal | ActivityLevel
  datatype Value = Text(text: string) | Number(number: int) | Null

  /** The value under one key of a profile, None when the key is absent:
      the profile seen as the JavaScript object it is. */
  function Lookup(u: UserData, f: Field): Option<Value> {
    match f
    case PlanId => match u.planId {
      case None => None
      case Some(None) => Some(Null)
      case Some(Some(id)) => Some(Text(id))
    }
    case Weight => if u.weight.Some? then Some(Number(u.weight.value)) else None
    case Height => if u.height.Some? then Some(Number(u.height.value)) else None
    case Gender => if u.gender.Some? then Some(Text(u.gender.value)) else None
    case DateOfBirth => if u.dateOfBirth.Some? then Some(Text(u.dateOfBirth.value)) else None
    case Goal => if u.goal.Some? then Some(Number(u.goal.value)) else None
    case ActivityLevel => if u.activityLevel.Some? then Some(Number(u.activityLevel.value)) else None
  }

  /** The key lookup of a profile that may be null: a null profile has no
      keys. */
  function LookupOr(prev: Option<UserData>, f: Field): Option<Value> {
    if prev.Some? then Lookup(prev.value, f) else None
  }

  /** The profile with no keys, which `...null` contributes to a spread. */
  const NO_FIELDS: UserData := UserData(None, None, None, None, None, None, None)

  /** One field of `{ ...prev, ...data }`: the update's value when it has the
      key, the previous value otherwise. */
  function Overlay<T>(prev: Option<T>, update: Option<T>): Option<T> {
    if update.Some? then update else prev
  }

  /** `{ ...base, ...data }` for two profile records. */
  function Spread(base: UserData, data: UserData): UserData {
    UserData(
      Overlay(base.planId, data.planId),
      Overlay(base.weight, data.weight),
      Overlay(base.height, data.height),
      Overlay(base.gender, data.gender),
      Overlay(base.dateOfBirth, data.dateOfBirth),
      Overlay(base.goal, data.goal),
      Overlay(base.activityLevel, data.activityLevel))
  }

  /** Key by key, a spread takes the later record's value when it has the
      key and the earlier record's otherwise. */
  lemma SpreadLookup(base: UserData, data: UserData)
    ensures forall f: Field ::
      Lookup(Spread(base, data), f) == (if Lookup(data, f).Some? then Lookup(data, f) else Lookup(base, f))
  {
    forall f: Field
      ensures Lookup(Spread(base, data), f) == (if Lookup(data, f).Some? then Lookup(data, f) else Lookup(base, f))
    {
      match f
      case PlanId =>
      case Weight =>
      case Height =>
      case Gender =>
      case DateOfBirth =>
      case Goal =>
      case ActivityLevel =>
    }
  }

  /** `updateUserData`: the supplied keys take the supplied values and every
      other key keeps the previous value (none when the previous profile is
      null). */
  function MergeUserData(prev: Option<UserData>, data: UserData): (r: UserData)
    ensures forall f: Field :: Lookup(r, f) == (if Lookup(data, f).Some? then Lookup(data, f) else LookupOr(prev, f))
  {
    var base := if prev.Some? then prev.value else NO_FIELDS;
    SpreadLookup(base, data);
    Spread(base, data)
  }

  /** Two profiles with the same value under every key are the same profile. */
  lemma LookupDetermines(u: UserData, v: UserData)
    requires forall f: Field :: Lookup(u, f) == Lookup(v, f)
    ensures u == v
  {
    assert Lookup(u, PlanId) == Lookup(v, PlanId);
    assert Lookup(u, Weight) == Lookup(v, Weight);
    assert Lookup(u, Height) == Lookup(v, Height);
    assert Lookup(u, Gender) == Lookup(v, Gender);
    assert Lookup(u, DateOfBirth) == Lookup(v, DateOfBirth);
    assert Lookup(u, Goal) == Lookup(v, Goal);
    assert Lookup(u, ActivityLevel) == Lookup(v, ActivityLevel);
  }

  /** Applying the same update twice is applying it once. */
  lemma MergeIdempotent(prev: Option<UserData>, data: UserData)
    ensures MergeUserData(Some(MergeUserData(prev, data)), data) == MergeUserData(prev, data)
  {
    var once := MergeUserData(prev, data);
    var twice := MergeUserData(Some(once), data);
    forall f: Field ensures Lookup(twice, f) == Lookup(once, f) {
    }
    LookupDetermines(twice, once);
  }

  /** Two updates in a row are one update with the later update's keys laid
      over the earlier's. */
  lemma MergeComposes(prev: Option<UserData>, first: UserData, second: UserData)
    ensures MergeUserData(Some(MergeUserData(prev, first)), second)
         == MergeUserData(prev, MergeUserData(Some(first), second))
  {
    var lhs := MergeUserData(Some(MergeUserData(prev, first)), second);
    var rhs := MergeUserData(prev, MergeUserData(Some(first), second));
    forall f: Field ensures Lookup(lhs, f) == Lookup(rhs, f) {
    }
    LookupDetermines(lhs, rhs);
  }

  /** The profile set from an ok response: exactly its seven fields. */
  function FromProfile(p: ProfileResponse): (u: UserData)
    ensures Lookup(u, PlanId) == Some(if p.planId.Some? then Text(p.planId.value) else Null)
    ensures Lookup(u, Weight) == Some(Number(p.weight)) && Lookup(u, Height) == Some(Number(p.height))
    ensures Lookup(u, Gender) == Some(Text(p.gender)) && Lookup(u, DateOfBirth) == Some(Text(p.dateOfBirth))
    ensures Lookup(u, Goal) == Some(Number(p.goal)) && Lookup(u, ActivityLevel) == Some(Number(p.activityLevel))
  {
    UserData(Some(p.planId), Some(p.weight), Some(p.height), Some(p.gender),
             Some(p.dateOfBirth), Some(p.goal), Some(p.activityLevel))
  }

  /** The profile response a complete profile came from; None when a key
      is missing. */
  function ToProfile(u: UserData): Option<ProfileResponse> {
    if u.planId.Some? && u.weight.Some? && u.height.Some? && u.gender.Some?
       && u.dateOfBirth.Some? && u.goal.Some? && u.activityLevel.Some?
    then Some(ProfileResponse(u.planId.value, u.weight.value, u.height.value, u.gender.value,
                              u.dateOfBirth.value, u.goal.value, u.activityLevel.value))
    else None
  }

  /** Nothing of the response is lost or invented: the stored profile reads
      back as the response, and a complete profile is the one built from the
      response it reads back as. */
  lemma ProfileRoundTrip(p: ProfileResponse, u: UserData)
    ensures ToProfile(FromProfile(p)) == Some(p)
    ensures ToProfile(u).Some? ==> FromProfile(ToProfile(u).value) == u
  {
  }

  /** The request `fetchUserProfile` sends for a session with a token. */
  function ProfileRequest(s: Session, base: string): (r: Request)
    ensures r.url == base + "/profile"
    ensures r.init.httpMethod == Some("GET") && r.init.body.None? && r.init.rest == map[]
    ensures r.init.headers.Keys == {CONTENT_TYPE, AUTHORIZATION}
    ensures r.init.headers[AUTHORIZATION] == s.tokenType + " " + s.accessToken
    ensures r.init.headers[CONTENT_TYPE] == APPLICATION_JSON
  {
    Request(base + "/profile",
      RequestInit(Some("GET"),
        map[CONTENT_TYPE := APPLICATION_JSON, AUTHORIZATION := s.tokenType + " " + s.accessToken],
        None, map[]))
  }

  /** The profile after a fetch that issued a request. An ok response sets
      the response's profile; a 404 clears it; any other status keeps it; a
      thrown error (network or unreadable body) clears it. */
  function UserDataAfterFetch(prev: Option<UserData>, reply: Reply<ProfileResponse>): (r: Option<UserData>)
    ensures reply.NetworkError? ==> r.None?
    ensures reply.Delivered? && reply.response.Ok() ==>
      r == (if reply.response.body.Some? then Some(FromProfile(reply.response.body.value)) else None)
    ensures reply.Delivered? && reply.response.status == 404 ==> r.None?
    ensures reply.Delivered? && !reply.response.Ok() && reply.response.status != 404 ==> r == prev
    ensures r.Some? ==> r == prev || (reply.Delivered? && reply.response.Ok())
  {
    match reply
    case NetworkError => None
    case Delivered(response) =>
      if response.Ok() then
        if response.body.Some? then Some(FromProfile(response.body.value)) else None
      else if response.status == 404 then None
      else prev
  }

  /** Whether the rendered session carries an access token. */
  predicate HasAccessToken(snapshot: Option<Session>) {
    snapshot.Some? && snapshot.value.accessToken != ""
  }

  /** The user provider: the profile (null until known) and its loading
      flag. */
  class UserProvider {
    var userData: Option<UserData>
    var isLoading: bool

    constructor ()
      ensures userData.None? && isLoading
    {
      userData := None;
      isLoading := true;
    }

    /** `fetchUserProfile` for the rendered session: without an access token
        it only clears the loading flag and sends nothing; otherwise it sends
        the profile request and handles the reply. The loading flag is false
        on every path. */
    method FetchUserProfile(snapshot: Option<Session>, base: string, reply: Reply<ProfileResponse>)
      returns (sent: Option<Request>)
      modifies this
      ensures !isLoading
      ensures !HasAccessToken(snapshot) ==> sent.None? && userData == old(userData)
      ensures HasAccessToken(snapshot) ==>
        && sent == Some(ProfileRequest(snapshot.value, base))
        && userData == UserDataAfterFetch(old(userData), reply)
    {
      if !HasAccessToken(snapshot) {
        isLoading := false;
        return None;
      }
      isLoading := true;
      sent := Some(ProfileRequest(snapshot.value, base));
      userData := UserDataAfterFetch(userData, reply);
      isLoading := false;
    }

    /** `updateUserData`: overlays the supplied fields on the profile. */
    method UpdateUserData(data: UserData)
      modifies this
      ensures userData == Some(MergeUserData(old(userData), data))
      ensures isLoading == old(isLoading)
    {
      userData := Some(MergeUserData(userData, data));
    }

    /** The effect run when the session's access token changes: with a token
        it fetches the profile; without one it clears the profile and the
        loading flag. */
    method OnAccessTokenChange(snapshot: Option<Session>, base: string, reply: Reply<ProfileResponse>)
      returns (sent: Option<Request>)
      modifies this
      ensures !isLoading
      ensures !HasAccessToken(snapshot) ==> sent.None? && userData.None?
      ensures HasAccessToken(snapshot) ==>
        && sent == Some(ProfileRequest(snapshot.value, base))
        && userData == UserDataAfterFetch(old(userData), reply)
    {
      if HasAccessToken(snapshot) {
        sent := FetchUserProfile(snapshot, base, reply);
      } else {
        userData := None;
        isLoading := false;
        sent := None;
      }
    }
  }
}
