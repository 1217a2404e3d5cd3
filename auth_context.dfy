/**
 * The front end's session: sign-in with the demonstration user, sign-out,
 * the token refresh and its timer, the tokens remembered in local storage,
 * and the permission check.
 *
 * The clock (`Date.now()`, in milliseconds), the decoding of a token's
 * `exp` claim and the JSON text of the stored tokens are parameters. The
 * pending refresh timer is recorded by its delay.
 */
module AuthContext {
  import opened Wrappers

  datatype AuthTokens = AuthTokens(access: string, refresh: string, expiresAt: Option<int>)

  datatype User = User(id: string, email: string, name: string, role: string, permissions: seq<string>, company: string)

  datatype AuthState = AuthState(user: Option<User>, tokens: Option<AuthTokens>, loading: bool, initialized: bool, error: Option<string>)

  /** A token due within this many milliseconds is refreshed. */
  const RefreshBuffer: int := 30000
  /** The shortest delay before a refresh. */
  const MinDelay: int := 5000
  /** The expiry assumed for a token without a readable `exp`: five minutes from now. */
  const FallbackLifetime: int := 300000
  /** The lifetime of the tokens issued at sign-in: fifteen minutes. */
  const LoginLifetime: int := 900000

  /**
   * `getExpiry`: the `exp` claim in milliseconds, or five minutes from now
   * when the token cannot be decoded or its `exp` is missing or 0.
   */
  function GetExpiry(exp: Option<int>, now: int): (at: int)
    ensures exp.Some? && exp.value != 0 ==> at == exp.value * 1000
    ensures exp.None? || exp.value == 0 ==> at == now + FallbackLifetime
  {
    if exp.None? || exp.value == 0 then now + FallbackLifetime else exp.value * 1000
  }

  /**
   * The refresh timer's delay: thirty seconds before expiry, but never less
   * than five seconds. Without an expiry the arithmetic gives `NaN`, which
   * the timer reads as 0.
   */
  function RefreshDelay(expiresAt: Option<int>, now: int): (delay: int)
    ensures expiresAt.Some? ==> delay >= MinDelay && delay >= expiresAt.value - now - RefreshBuffer
    ensures expiresAt.Some? ==> delay == MinDelay || delay == expiresAt.value - now - RefreshBuffer
    ensures expiresAt.None? ==> delay == 0
  {
    if expiresAt.None? then 0
    else if expiresAt.value - now - RefreshBuffer > MinDelay then expiresAt.value - now - RefreshBuffer
    else MinDelay
  }

  /**
   * The tokens after a refresh whose callback reads `seen` as the session's
   * tokens: without tokens it returns at once and `current` stays; otherwise
   * the access token's expiry is read again.
   */
  function FiredRefresh(seen: Option<AuthTokens>, current: Option<AuthTokens>, now: int,
                        expClaim: string -> Option<int>): (r: Option<AuthTokens>)
    ensures seen.None? ==> r == current
    ensures seen.Some? ==> r == Some(seen.value.(expiresAt := Some(GetExpiry(expClaim(seen.value.access), now))))
  {
    if seen.None? then current
    else Some(seen.value.(expiresAt := Some(GetExpiry(expClaim(seen.value.access), now))))
  }

  /**
   * The refresh timer as written: `scheduleRefresh` is memoised with no
   * dependencies, so its timer calls the `refresh` of the first render,
   * whose state had no tokens yet.
   */
  function TimerRefreshAsWritten(current: Option<AuthTokens>, now: int, expClaim: string -> Option<int>): (r: Option<AuthTokens>)
    ensures r == current
  {
    FiredRefresh(None, current, now, expClaim)
  }

  /** The refresh timer as intended: it renews the tokens the session holds when it fires. */
  function TimerRefresh(current: Option<AuthTokens>, now: int, expClaim: string -> Option<int>): (r: Option<AuthTokens>)
    ensures r.Some? <==> current.Some?
    ensures current.Some? ==> r.value.access == current.value.access && r.value.refresh == current.value.refresh
    ensures current.Some? && expClaim(current.value.access).None? ==> r.value.expiresAt == Some(now + FallbackLifetime)
  {
    FiredRefresh(current, current, now, expClaim)
  }

  /**
   * After sign-in the timer fires thirty seconds before the fifteen minutes
   * are up. As written the tokens keep their old expiry, thirty seconds
   * away; the intended refresh pushes it five minutes past the firing
   * when the demonstration token has no readable `exp`.
   */
  lemma StaleTimerNeverRenews(signedIn: int, expClaim: string -> Option<int>)
    requires expClaim("fake.access.token").None?
    ensures var tokens := Some(AuthTokens("fake.access.token", "fake.refresh.token", Some(signedIn + LoginLifetime)));
            var fires := signedIn + RefreshDelay(tokens.value.expiresAt, signedIn);
            fires == signedIn + LoginLifetime - RefreshBuffer &&
            TimerRefreshAsWritten(tokens, fires, expClaim).value.expiresAt == Some(fires + RefreshBuffer) &&
            TimerRefresh(tokens, fires, expClaim).value.expiresAt == Some(fires + FallbackLifetime)
  {
  }

  /** A later expiry never brings the refresh forward. */
  lemma DelayMonotone(a: int, b: int, now: int)
    requires a <= b
    ensures RefreshDelay(Some(a), now) <= RefreshDelay(Some(b), now)
  {
  }

  /** A permission query: one permission, or a list that must all be held. */
  datatype PermissionQuery = One(perm: string) | All(perms: seq<string>)

  /**
   * `hasPermission`: false when signed out; true for everything when the
   * user holds `*`; otherwise every listed permission, or the one asked,
   * must be held.
   */
  function HasPermission(user: Option<User>, q: PermissionQuery): (r: bool)
    ensures r <==> user.Some? && ("*" in user.value.permissions || (forall p :: p in Asked(q) ==> p in user.value.permissions))
  {
    if user.None? then false
    else if "*" in user.value.permissions then true
    else match q
      case All(ps) => forall i :: 0 <= i < |ps| ==> ps[i] in user.value.permissions
      case One(p) => p in user.value.permissions
  }

  /** The permissions a query names. */
  function Asked(q: PermissionQuery): set<string>
  {
    match q
    case One(p) => {p}
    case All(ps) => set p | p in ps
  }

  /** The check's cases: signed out, the wildcard, the empty list, a single permission. */
  lemma HasPermissionCases(user: Option<User>, q: PermissionQuery)
    ensures user.None? ==> !HasPermission(user, q)
    ensures user.Some? && "*" in user.value.permissions ==> HasPermission(user, q)
    ensures user.Some? ==> HasPermission(user, All([]))
    ensures user.Some? && q.One? ==> (HasPermission(user, q) <==> "*" in user.value.permissions || q.perm in user.value.permissions)
  {
  }

  /** Asking for a list is asking for each of its permissions. */
  lemma AllMeansEach(user: Option<User>, ps: seq<string>)
    ensures HasPermission(user, All(ps)) <==> user.Some? && forall i :: 0 <= i < |ps| ==> HasPermission(user, One(ps[i]))
  {
  }

  /** A user holding more permissions passes every check a user holding fewer passes. */
  lemma MorePermissionsAllowMore(u: User, v: User, q: PermissionQuery)
    requires forall p :: p in u.permissions ==> p in v.permissions
    ensures HasPermission(Some(u), q) ==> HasPermission(Some(v), q)
  {
  }

  /** The demonstration user every sign-in and every restored session gets. */
  function DemoUser(email: string): (u: User)
    ensures u.permissions == ["*"]
  {
    User("1", email, "Demo User", "Administrator", ["*"], "Acme Corp")
  }

  /**
   * `loadPersisted`: nothing when storage holds nothing or an empty text,
   * when the text does not parse, or when the tokens have expired; tokens
   * without an expiry never count as expired.
   */
  function LoadPersisted(raw: Option<string>, parse: string -> Option<AuthTokens>, now: int): (r: Option<AuthTokens>)
    ensures r.Some? ==> raw.Some? && raw.value != "" && parse(raw.value) == r
    ensures r.Some? && r.value.expiresAt.Some? ==> r.value.expiresAt.value >= now
    ensures raw.Some? && raw.value != "" && parse(raw.value).Some? && parse(raw.value).value.expiresAt.None? ==> r == parse(raw.value)
  {
    if raw.None? || raw.value == "" then None
    else
      var parsed := parse(raw.value);
      if parsed.None? then None
      else if parsed.value.expiresAt.Some? && parsed.value.expiresAt.value < now then None
      else parsed
  }

  /** `e.message || 'Login failed'`. */
  function LoginFailure(message: string): (m: string)
    ensures m != ""
    ensures message != "" ==> m == message
  {
    if message != "" then message else "Login failed"
  }

  /** The signed-out state. */
  const SignedOut: AuthState := AuthState(None, None, false, true, None)

  class Provider {
    var state: AuthState
    /** The `auth_tokens` entry of local storage. */
    var storage: Option<string>
    /** The delay of the pending refresh timer, if one is pending. */
    var timer: Option<int>

    constructor(stored: Option<string>)
      ensures state == AuthState(None, None, false, false, None) && storage == stored && timer == None
    {
      state := AuthState(None, None, false, false, None);
      storage := stored;
      timer := None;
    }

    /** `persist`: the tokens are written only when there are some and "remember me" is on; otherwise the entry is removed. */
    method Persist(tokens: Option<AuthTokens>, remember: bool, serialize: AuthTokens -> string)
      modifies this
      ensures storage == if tokens.Some? && remember then Some(serialize(tokens.value)) else None
      ensures state == old(state) && timer == old(timer)
    {
      if tokens.Some? && remember {
        storage := Some(serialize(tokens.value));
      } else {
        storage := None;
      }
    }

    /** `scheduleRefresh`: any pending timer is replaced by one for these tokens. */
    method ScheduleRefresh(tokens: AuthTokens, now: int)
      modifies this
      ensures timer == Some(RefreshDelay(tokens.expiresAt, now))
      ensures state == old(state) && storage == old(storage)
    {
      timer := Some(RefreshDelay(tokens.expiresAt, now));
    }

    /**
     * `login`: the demonstration user with renewed tokens valid for fifteen
     * minutes. `storageError` is the message of the exception `localStorage`
     * raises when it refuses the write (quota, privacy settings); the `catch`
     * then records it, or 'Login failed' for an empty message, and the
     * tokens are neither kept nor scheduled.
     */
    method Login(email: string, remember: bool, now: int, serialize: AuthTokens -> string,
                 storageError: Option<string>) returns (ok: bool)
      modifies this
      ensures ok <==> storageError.None?
      ensures ok ==> state.user == Some(DemoUser(email)) && state.initialized && !state.loading && state.error.None?
      ensures ok ==> state.tokens == Some(AuthTokens("fake.access.token", "fake.refresh.token", Some(now + LoginLifetime)))
      ensures ok ==> storage == if remember then Some(serialize(state.tokens.value)) else None
      ensures ok ==> timer == Some(LoginLifetime - RefreshBuffer)
      ensures !ok ==> state == old(state).(loading := false, error := Some(LoginFailure(storageError.value)))
      ensures !ok ==> storage == old(storage) && timer == old(timer)
    {
      if storageError.Some? {
        state := state.(loading := false, error := Some(LoginFailure(storageError.value)));
        return false;
      }
      var tokens := AuthTokens("fake.access.token", "fake.refresh.token", Some(now + LoginLifetime));
      Persist(Some(tokens), remember, serialize);
      state := AuthState(Some(DemoUser(email)), Some(tokens), false, true, None);
      ScheduleRefresh(tokens, now);
      ok := true;
    }

    /** `logout`: signed out, the stored tokens removed and the timer cleared. */
    method Logout()
      modifies this
      ensures state == SignedOut && storage == None && timer == None
    {
      storage := None;
      timer := None;
      state := SignedOut;
    }

    /**
     * `refresh`: without tokens nothing happens; otherwise the access token's
     * expiry is read again, the tokens are stored (remembered or not) and a
     * new timer is set.
     */
    method Refresh(now: int, expClaim: string -> Option<int>, serialize: AuthTokens -> string)
      modifies this
      ensures old(state).tokens.None? ==> state == old(state) && storage == old(storage) && timer == old(timer)
      ensures old(state).tokens.Some? ==>
                var t := old(state).tokens.value;
                var renewed := t.(expiresAt := Some(GetExpiry(expClaim(t.access), now)));
                state == old(state).(tokens := Some(renewed)) && storage == Some(serialize(renewed)) &&
                timer == Some(RefreshDelay(renewed.expiresAt, now))
    {
      if state.tokens.None? {
        return;
      }
      var t := state.tokens.value;
      var renewed := t.(expiresAt := Some(GetExpiry(expClaim(t.access), now)));
      Persist(Some(renewed), true, serialize);
      state := state.(tokens := Some(renewed));
      ScheduleRefresh(renewed, now);
    }

    /**
     * The pending timer fires. As written its callback is the first render's
     * `refresh`, which sees no tokens and returns: nothing is renewed and no
     * new timer is set.
     */
    method TimerFires(now: int, expClaim: string -> Option<int>)
      modifies this
      ensures state == old(state).(tokens := TimerRefreshAsWritten(old(state).tokens, now, expClaim))
      ensures storage == old(storage) && timer == None
    {
      state := state.(tokens := TimerRefreshAsWritten(state.tokens, now, expClaim));
      timer := None;
    }

    /** Start-up: a stored, unexpired session is restored with the demonstration user; otherwise only `initialized` is set. */
    method Init(now: int, parse: string -> Option<AuthTokens>)
      modifies this
      ensures storage == old(storage)
      ensures LoadPersisted(old(storage), parse, now).Some? ==>
                state == AuthState(Some(DemoUser("demo@example.com")), LoadPersisted(old(storage), parse, now), false, true, None) &&
                timer == Some(RefreshDelay(LoadPersisted(old(storage), parse, now).value.expiresAt, now))
      ensures LoadPersisted(old(storage), parse, now).None? ==> state == old(state).(initialized := true) && timer == old(timer)
    {
      var persisted := LoadPersisted(storage, parse, now);
      if persisted.Some? {
        state := AuthState(Some(DemoUser("demo@example.com")), persisted, false, true, None);
        ScheduleRefresh(persisted.value, now);
      } else {
        state := state.(initialized := true);
      }
    }
  }

  /**
   * Remembered tokens come back: what `persist` wrote is what
   * `loadPersisted` reads, until the tokens expire, provided the JSON text
   * is not empty and parses back to the tokens.
   */
  lemma PersistedTokensReload(t: AuthTokens, serialize: AuthTokens -> string, parse: string -> Option<AuthTokens>, now: int)
    requires serialize(t) != "" && parse(serialize(t)) == Some(t)
    ensures t.expiresAt.None? || now <= t.expiresAt.value ==> LoadPersisted(Some(serialize(t)), parse, now) == Some(t)
    ensures t.expiresAt.Some? && t.expiresAt.value < now ==> LoadPersisted(Some(serialize(t)), parse, now).None?
  {
  }
}
