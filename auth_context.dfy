/** The session core of src/context/AuthContext.tsx: the provider's two state
    cells (`isAuthenticated`, `user`), the one browser-storage slot holding the
    session token, and the three operations that change them — the token load
    that runs once at mount, `login` and `logout`.

    The transitions are first stated as functions on a `SessionState` value;
    the `AuthProvider` class then performs them in place, field by field, and
    its methods are proved to agree with those functions. */
module Session {
  import opened Wrappers
  import opened Constants
  import opened AuthTypes
  import Validation

  /** What the storage slot holds, as the mount effect reads it. JSON decoding
      stays abstract: `Blank` is the empty string (falsy, so the effect skips
      it), `Malformed` is any value whose decoding or field access throws, and
      `Parsed` is a value that decodes without throwing. A number, a string,
      a boolean or an array decodes without throwing and has no truthy
      `isAuthenticated`, so it is a `Parsed` token whose flag is false. The
      text `null` decodes to `null`, on which the field read throws, so it is
      `Malformed`. */
  datatype Stored = Blank | Malformed | Parsed(token: AuthToken)

  /** The provider's whole state: the two React state cells and the storage
      slot (`None` when the key is absent). */
  datatype SessionState = SessionState(
    isAuthenticated: bool,
    user: Option<User>,
    storage: Option<Stored>)

  /** What `login` resolves to, with the state it leaves behind. */
  datatype LoginResult = LoginResult(success: bool, next: SessionState)

  /** The user the fixed account signs in as. */
  const AdminUser: User := User(AdminId, AdminName)

  /** The token `login` writes for the fixed account; `now` stands for
      `Date.now()`. */
  function AdminToken(rememberMe: bool, now: int): (token: AuthToken) {
    AuthToken(AdminId, AdminName, true, Some(rememberMe), Some(now))
  }

  // ---------------------------------------------------------------------------
  // Transitions
  // ---------------------------------------------------------------------------

  /** The state right after the provider is created: both `useState` cells at
      their initial values, storage as the browser had it. */
  function Mount(stored: Option<Stored>): (s: SessionState) {
    SessionState(false, None, stored)
  }

  /** The mount effect: a stored token that decodes and says it is
      authenticated signs its user in; a value that fails to decode is
      removed; anything else changes nothing. */
  function LoadTokenStep(s: SessionState): (r: SessionState)
    ensures r.storage == if s.storage == Some(Malformed) then None else s.storage
    ensures StoredUser(s.storage).Some? ==> r.isAuthenticated && r.user == StoredUser(s.storage)
    ensures StoredUser(s.storage).None? ==> r.isAuthenticated == s.isAuthenticated && r.user == s.user
  {
    match s.storage
    case None => s
    case Some(Blank) => s
    case Some(Malformed) => s.(storage := None)
    case Some(Parsed(token)) =>
      if token.isAuthenticated then s.(isAuthenticated := true, user := Some(UserOf(token)))
      else s
  }

  /** `login`: only the fixed account succeeds; it writes the token, then the
      two state cells. Any other pair changes nothing. */
  function LoginStep(s: SessionState, id: string, password: string, rememberMe: bool, now: int): (r: LoginResult)
    ensures r.success <==> Validation.ValidateCredentials(id, password)
    ensures r.success ==> Synced(r.next) && r.next.user == Some(AdminUser)
                          && StoredUser(r.next.storage) == Some(AdminUser)
    ensures !r.success ==> r.next == s
  {
    if id == AdminId && password == AdminPassword then
      LoginResult(true, SessionState(true, Some(AdminUser), Some(Parsed(AdminToken(rememberMe, now)))))
    else
      LoginResult(false, s)
  }

  /** `logout`: removes the token and clears both cells, from any state. */
  function LogoutStep(s: SessionState): (r: SessionState)
    ensures r == Mount(None) && Synced(r)
  {
    SessionState(false, None, None)
  }

  // ---------------------------------------------------------------------------
  // Invariants
  // ---------------------------------------------------------------------------

  /** The user a storage slot signs in on reload, if any. */
  function StoredUser(storage: Option<Stored>): (user: Option<User>) {
    match storage
    case Some(Parsed(token)) => if token.isAuthenticated then Some(UserOf(token)) else None
    case _ => None
  }

  /** Holds from creation on: the flag is set exactly when there is a user,
      and a signed-in user is the one the stored token names. */
  predicate Mirrored(s: SessionState) {
    (s.isAuthenticated <==> s.user.Some?)
    && (s.isAuthenticated ==> s.user == StoredUser(s.storage))
  }

  /** Holds once the mount effect has run: the in-memory state is exactly
      what the stored token determines, and no undecodable value is left. */
  predicate Synced(s: SessionState) {
    s.storage != Some(Malformed)
    && s.user == StoredUser(s.storage)
    && (s.isAuthenticated <==> s.user.Some?)
  }

  /** Reloading the page: a fresh provider over the same storage, after its
      mount effect. */
  function Reload(s: SessionState): (r: SessionState) {
    LoadTokenStep(Mount(s.storage))
  }

  // ---------------------------------------------------------------------------
  // Properties of the transitions
  // ---------------------------------------------------------------------------

  /** The mount effect on a decodable, authenticated token signs in the
      token's user and leaves storage alone. */
  lemma LoadAuthenticatedToken(stored: Option<Stored>, token: AuthToken)
    requires stored == Some(Parsed(token)) && token.isAuthenticated
    ensures var s := LoadTokenStep(Mount(stored));
      s.isAuthenticated && s.user == Some(User(token.userId, token.userName)) && s.storage == stored
  {
  }

  /** The mount effect on an undecodable value removes it and stays signed
      out. */
  lemma LoadMalformedToken()
    ensures LoadTokenStep(Mount(Some(Malformed))) == SessionState(false, None, None)
  {
  }

  /** The mount effect with nothing usable stored — no key, an empty string,
      or a token that is not authenticated — changes nothing. */
  lemma LoadIgnoredToken(stored: Option<Stored>)
    requires stored == None || stored == Some(Blank)
      || (stored.Some? && stored.value.Parsed? && !stored.value.token.isAuthenticated)
    ensures LoadTokenStep(Mount(stored)) == Mount(stored)
  {
  }

  /** `login` succeeds exactly for the pair `validateCredentials` accepts, and
      then stores the admin token and signs in the admin user; on failure it
      changes neither state nor storage. */
  lemma LoginOutcome(s: SessionState, id: string, password: string, rememberMe: bool, now: int)
    ensures var r := LoginStep(s, id, password, rememberMe, now);
      (r.success <==> Validation.ValidateCredentials(id, password))
      && (r.success ==> r.next.isAuthenticated && r.next.user == Some(AdminUser)
                        && r.next.storage == Some(Parsed(AdminToken(rememberMe, now))))
      && (!r.success ==> r.next == s)
  {
  }

  /** `logout` signs out from any state, and doing it twice is doing it once. */
  lemma LogoutIdempotent(s: SessionState)
    ensures var t := LogoutStep(s); !t.isAuthenticated && t.user == None && t.storage == None
    ensures LogoutStep(LogoutStep(s)) == LogoutStep(s)
  {
  }

  /** Every transition keeps `Mirrored`. */
  lemma StepsKeepMirrored(s: SessionState, id: string, password: string, rememberMe: bool, now: int)
    requires Mirrored(s)
    ensures Mirrored(LoadTokenStep(s))
    ensures Mirrored(LoginStep(s, id, password, rememberMe, now).next)
    ensures Mirrored(LogoutStep(s))
  {
  }

  /** The mount effect turns any `Mirrored` state into a `Synced` one: after
      it, the state is derived from storage alone. */
  lemma LoadSyncs(s: SessionState)
    requires Mirrored(s)
    ensures Synced(LoadTokenStep(s))
  {
  }

  /** `login`, successful or not, keeps `Synced`. */
  lemma LoginKeepsSynced(s: SessionState, id: string, password: string, rememberMe: bool, now: int)
    requires Synced(s)
    ensures Synced(LoginStep(s, id, password, rememberMe, now).next)
  {
  }

  /** `logout` keeps `Synced`. */
  lemma LogoutKeepsSynced(s: SessionState)
    requires Synced(s)
    ensures Synced(LogoutStep(s))
  {
  }

  /** The persisted token is the only durable state: reloading a `Synced`
      state rebuilds it exactly. In particular a successful login survives a
      reload whatever `rememberMe` was. */
  lemma ReloadRestores(s: SessionState)
    requires Synced(s)
    ensures Reload(s) == s
  {
  }

  // ---------------------------------------------------------------------------
  // A provider's lifetime
  // ---------------------------------------------------------------------------

  /** The calls the view layer makes on a mounted provider. */
  datatype Call =
    | LoginCall(id: string, password: string, rememberMe: bool, now: int)
    | LogoutCall

  function Apply(s: SessionState, call: Call): (r: SessionState) {
    match call
    case LoginCall(id, password, rememberMe, now) => LoginStep(s, id, password, rememberMe, now).next
    case LogoutCall => LogoutStep(s)
  }

  /** The state after a sequence of calls, in order. */
  function Run(s: SessionState, calls: seq<Call>): (r: SessionState)
    decreases |calls|
  {
    if calls == [] then s else Run(Apply(s, calls[0]), calls[1..])
  }

  /** Any sequence of `login`/`logout` calls keeps `Synced`. */
  lemma {:induction false} RunKeepsSynced(s: SessionState, calls: seq<Call>)
    requires Synced(s)
    ensures Synced(Run(s, calls))
    decreases |calls|
  {
    if calls != [] {
      match calls[0] {
        case LoginCall(id, password, rememberMe, now) => LoginKeepsSynced(s, id, password, rememberMe, now);
        case LogoutCall => LogoutKeepsSynced(s);
      }
      RunKeepsSynced(Apply(s, calls[0]), calls[1..]);
    }
  }

  /** A provider mounted over any storage and then driven by any calls is
      signed in exactly when its user is set, that user is the one the stored
      token names, and a reload yields the same state. */
  lemma {:induction false} Lifetime(stored: Option<Stored>, calls: seq<Call>)
    ensures var s := Run(LoadTokenStep(Mount(stored)), calls);
      (s.isAuthenticated <==> s.user.Some?) && s.user == StoredUser(s.storage) && Reload(s) == s
  {
    LoadSyncs(Mount(stored));
    RunKeepsSynced(LoadTokenStep(Mount(stored)), calls);
    ReloadRestores(Run(LoadTokenStep(Mount(stored)), calls));
  }

  // ---------------------------------------------------------------------------
  // The provider
  // ---------------------------------------------------------------------------

  /** `AuthProvider`: the two state cells and the storage slot, updated in
      place by the mount effect, `login` and `logout`. */
  class AuthProvider {
    var isAuthenticated: bool
    var user: Option<User>
    var storage: Option<Stored>

    function State(): (s: SessionState)
      reads this
    {
      SessionState(isAuthenticated, user, storage)
    }

    predicate Valid()
      reads this
    {
      Mirrored(State())
    }

    /** A provider is created signed out, over whatever storage holds. */
    constructor (stored: Option<Stored>)
      ensures Valid()
      ensures State() == Mount(stored)
      ensures !isAuthenticated && user == None && storage == stored
    {
      isAuthenticated := false;
      user := None;
      storage := stored;
    }

    /** The mount effect: reads the slot once and acts on what it holds. */
    method LoadStoredToken()
      requires Valid()
      modifies this
      ensures Valid() && Synced(State())
      ensures State() == LoadTokenStep(old(State()))
    {
      LoadSyncs(State());
      match storage
      case None =>
      case Some(Blank) =>
      case Some(Malformed) =>
        storage := None;
      case Some(Parsed(token)) =>
        if token.isAuthenticated {
          isAuthenticated := true;
          user := Some(UserOf(token));
        }
    }

    /** `login`, with its promise already resolved. */
    method Login(id: string, password: string, rememberMe: bool, now: int) returns (success: bool)
      requires Valid()
      modifies this
      ensures Valid()
      ensures LoginResult(success, State()) == LoginStep(old(State()), id, password, rememberMe, now)
      ensures success <==> Validation.ValidateCredentials(id, password)
      ensures success ==> isAuthenticated && user == Some(AdminUser)
                          && storage == Some(Parsed(AdminToken(rememberMe, now)))
      ensures !success ==> unchanged(this)
      ensures old(Synced(State())) ==> Synced(State())
    {
      if id == AdminId && password == AdminPassword {
        storage := Some(Parsed(AdminToken(rememberMe, now)));
        isAuthenticated := true;
        user := Some(AdminUser);
        return true;
      }
      return false;
    }

    /** `logout`: unconditional. */
    method Logout()
      requires Valid()
      modifies this
      ensures Valid()
      ensures State() == LogoutStep(old(State()))
      ensures !isAuthenticated && user == None && storage == None
    {
      storage := None;
      isAuthenticated := false;
      user := None;
    }
  }
}
