/** The client's session store (`AuthProvider`): an in-memory bearer token, the token
    persisted in local storage under "token", the query client's cache (where the
    current user is kept under the key ["user"]), the pending flags of the login and
    register mutations, and the last navigation target.

    `Session` is the value of that state and the functions below are its transitions;
    the class `AuthProvider` holds the same state in fields and performs each transition
    in place. Network responses are parameters: the model decides nothing about them. */
module AuthContext {
  import opened Common

  datatype User = User(id: int, username: string, isStaff: bool)

  type QueryKey = seq<string>

  const UserQueryKey: QueryKey := ["user"]

  /** What a cached query holds: the current user, or the data of some other screen. */
  datatype CachedData = UserData(result: UserResult) | OtherData(payload: string)

  /** Where the user query's fetch stands. The query is configured with one retry, so a
      failed first attempt leaves the fetch going until the retry has run. */
  datatype UserQuery = Idle | Attempt(isRetry: bool) | RetryScheduled

  /** What the user query's function settled on: the user, or `null` when it ran without
      a token. */
  datatype UserResult = Fetched(user: User) | NoToken

  /** A cache entry and whether `invalidateQueries` has marked it for refetching. */
  datatype CacheEntry = CacheEntry(data: CachedData, invalidated: bool)

  datatype Session = Session(
    token: Option<string>,
    stored: Option<string>,
    cache: map<QueryKey, CacheEntry>,
    query: UserQuery,
    loginPending: bool,
    registerPending: bool,
    location: Option<string>)

  const LoginPath := "/login"
  const DashboardPath := "/dashboard"

  const WelcomeToast := "Welcome back!"
  const RegisteredToast := "You can now log in with your credentials"
  const LoggedOutToast := "You have been successfully logged out"
  const InvalidCredentialsMessage := "Invalid credentials"
  const RegistrationFailedMessage := "Registration failed"
  const GenericErrorToast := "An error occurred. Please try again."

  // ---------------------------------------------------------------------------
  // Derived values exposed by the context

  /** The user query runs only while the token is truthy (`enabled: !!token`). */
  predicate QueryEnabled(s: Session)
  {
    s.token.Some? && s.token.value != ""
  }

  /** `user || null`: the user cached under ["user"], if any. */
  function SessionUser(s: Session): Option<User>
  {
    if UserQueryKey in s.cache && s.cache[UserQueryKey].data.UserData?
       && s.cache[UserQueryKey].data.result.Fetched? then
      Some(s.cache[UserQueryKey].data.result.user)
    else None
  }

  /** The query's fetch status is "fetching" (a pending retry included). */
  predicate UserFetching(s: Session)
  {
    !s.query.Idle?
  }

  /** `isLoading`: the user query's first load (a fetch with nothing cached yet), or a
      pending login or register mutation. */
  predicate SessionLoading(s: Session)
  {
    (UserFetching(s) && UserQueryKey !in s.cache) || s.loginPending || s.registerPending
  }

  // ---------------------------------------------------------------------------
  // Transitions

  /** What `useQuery` does when it renders: an enabled, idle query whose data is missing
      or invalidated starts fetching at once. */
  function ObserveUserQuery(s: Session): (r: Session)
    ensures r == s || r == s.(query := Attempt(false))
    ensures r != s <==> QueryEnabled(s) && s.query.Idle? && (UserQueryKey !in s.cache || s.cache[UserQueryKey].invalidated)
  {
    if QueryEnabled(s) && s.query.Idle? && (UserQueryKey !in s.cache || s.cache[UserQueryKey].invalidated) then
      s.(query := Attempt(false))
    else s
  }

  /** Mounting the provider: the token is read back from local storage and the user query
      renders for the first time. */
  function Init(persisted: Option<string>): Session
  {
    ObserveUserQuery(Session(persisted, persisted, map[], Idle, false, false, None))
  }

  /** A later refetch of an enabled, idle query (on reconnect or on a new mount; refetching
      on window focus is switched off). */
  function StartUserFetch(s: Session): Session
  {
    if QueryEnabled(s) && s.query.Idle? then s.(query := Attempt(false)) else s
  }

  /** The identity endpoint answered an attempt with a user. */
  function UserFetched(s: Session, u: User): Session
  {
    if s.query.Attempt? then
      s.(cache := s.cache[UserQueryKey := CacheEntry(UserData(Fetched(u)), false)], query := Idle)
    else s
  }

  /** The identity endpoint failed an attempt: the catch block removes the token from
      storage and from memory and rethrows. A first attempt then waits for its retry; a
      failed retry ends the fetch with an error, which leaves the cached data in place. */
  function UserFetchFailed(s: Session): Session
  {
    if s.query.Attempt? then
      s.(stored := None, token := None, query := if s.query.isRetry then Idle else RetryScheduled)
    else s
  }

  /** The retry runs the query function again with the current token: without one it
      returns `null`, which replaces the cached user; with one it fetches again. */
  function RetryFired(s: Session): Session
  {
    if !s.query.RetryScheduled? then s
    else if !QueryEnabled(s) then
      s.(cache := s.cache[UserQueryKey := CacheEntry(UserData(NoToken), false)], query := Idle)
    else s.(query := Attempt(true))
  }

  function LoginStarted(s: Session): Session
  {
    s.(loginPending := true)
  }

  /** `invalidateQueries({ queryKey })`: marks every entry whose key starts with `prefix`. */
  function Invalidate(cache: map<QueryKey, CacheEntry>, prefix: QueryKey): (r: map<QueryKey, CacheEntry>)
    ensures r.Keys == cache.Keys
    ensures forall k :: k in r ==> r[k].data == cache[k].data
    ensures forall k :: k in r ==> (r[k].invalidated <==> cache[k].invalidated || prefix <= k)
  {
    map k | k in cache :: if prefix <= k then cache[k].(invalidated := true) else cache[k]
  }

  /** The login mutation's `onSuccess`, followed by the render in which the user query
      sees the new token. */
  function LoginSucceeded(s: Session, accessToken: string): Session
  {
    ObserveUserQuery(
      s.(stored := Some(accessToken), token := Some(accessToken),
         cache := Invalidate(s.cache, UserQueryKey),
         loginPending := false, location := Some(DashboardPath)))
  }

  function LoginFailed(s: Session): Session
  {
    s.(loginPending := false)
  }

  function RegisterStarted(s: Session): Session
  {
    s.(registerPending := true)
  }

  function RegisterSucceeded(s: Session): Session
  {
    s.(registerPending := false, location := Some(LoginPath))
  }

  function RegisterFailed(s: Session): Session
  {
    s.(registerPending := false)
  }

  /** Logout: storage and memory lose the token, the whole query cache is cleared (an
      in-flight user fetch has nowhere to land) and the app navigates to the login page. */
  function LoggedOut(s: Session): Session
  {
    s.(stored := None, token := None, cache := map[], query := Idle, location := Some(LoginPath))
  }

  /** `new Error(error.detail || fallback)`. */
  function ErrorMessage(detail: Option<string>, fallback: string): string
  {
    if detail.Some? && detail.value != "" then detail.value else fallback
  }

  /** `toast(error.message || generic)`. */
  function ErrorToast(message: string): string
  {
    if message != "" then message else GenericErrorToast
  }

  /** A failed login shows the server's `detail`, or "Invalid credentials" when it has none;
      a failed registration likewise falls back to "Registration failed". */
  lemma FailureToasts(detail: Option<string>)
    ensures ErrorToast(ErrorMessage(detail, InvalidCredentialsMessage))
            == (if detail.Some? && detail.value != "" then detail.value else InvalidCredentialsMessage)
    ensures ErrorToast(ErrorMessage(detail, RegistrationFailedMessage))
            == (if detail.Some? && detail.value != "" then detail.value else RegistrationFailedMessage)
  {
  }

  // ---------------------------------------------------------------------------
  // Properties of single transitions

  /** The session invariant: the in-memory token mirrors the persisted one, and an attempt
      of the user query is only ever in flight with a token. */
  predicate Valid(s: Session)
  {
    s.token == s.stored && (s.query.Attempt? ==> s.token.Some?)
  }

  /** Startup restores the persisted token. With a truthy token the user query is fetching
      from the first render, so the context reports loading; without one nothing loads and
      there is no user. */
  lemma InitRestoresPersistedToken(persisted: Option<string>)
    ensures Init(persisted).token == persisted && Valid(Init(persisted))
    ensures QueryEnabled(Init(persisted)) ==> Init(persisted).query == Attempt(false) && SessionLoading(Init(persisted))
    ensures !QueryEnabled(Init(persisted)) ==> SessionUser(Init(persisted)) == None && !SessionLoading(Init(persisted))
  {
  }

  /** No attempt of the user query starts without a (truthy) token. */
  lemma FetchNeedsToken(s: Session, e: Event)
    requires !s.query.Attempt? && Step(s, e).query.Attempt?
    ensures QueryEnabled(Step(s, e))
  {
  }

  /** A failed attempt clears the token in memory and in storage; a first attempt then
      waits for its retry, so the fetch is not over yet. */
  lemma FetchFailureClearsToken(s: Session)
    requires s.query.Attempt?
    ensures UserFetchFailed(s).token == None && UserFetchFailed(s).stored == None
    ensures !s.query.isRetry ==> UserFetchFailed(s).query == RetryScheduled
    ensures UserQueryKey !in s.cache ==> SessionUser(UserFetchFailed(s)) == None
  {
  }

  /** A retry that runs without a token settles the query on `null`: no user, nothing
      fetching. */
  lemma RetryWithoutTokenClearsUser(s: Session)
    requires s.query.RetryScheduled? && !QueryEnabled(s)
    ensures SessionUser(RetryFired(s)) == None && RetryFired(s).query == Idle
    ensures SessionLoading(RetryFired(s)) <==> s.loginPending || s.registerPending
  {
  }

  /** A successful login stores the same token in memory and in storage and marks the user
      query for refetching; with a truthy token and no fetch in flight the query then
      refetches. A failed login leaves the token alone. */
  lemma LoginEffects(s: Session, accessToken: string)
    ensures LoginSucceeded(s, accessToken).token == Some(accessToken)
    ensures LoginSucceeded(s, accessToken).stored == Some(accessToken)
    ensures UserQueryKey in s.cache ==> LoginSucceeded(s, accessToken).cache[UserQueryKey].invalidated
    ensures accessToken != "" && s.query.Idle? ==> LoginSucceeded(s, accessToken).query == Attempt(false)
    ensures LoginFailed(s).token == s.token && LoginFailed(s).stored == s.stored
  {
  }

  /** Registering never touches the token (no automatic login) and, on success, goes to
      the login page. */
  lemma RegisterKeepsToken(s: Session)
    ensures RegisterStarted(s).token == s.token && RegisterSucceeded(s).token == s.token
    ensures RegisterFailed(s).token == s.token
    ensures RegisterSucceeded(s).location == Some(LoginPath)
  {
  }

  /** Logging out, from any state, leaves no token, no cached data and no user. */
  lemma LogoutFromAnyState(s: Session)
    ensures LoggedOut(s).token == None && LoggedOut(s).stored == None
    ensures LoggedOut(s).cache == map[] && SessionUser(LoggedOut(s)) == None
    ensures Valid(LoggedOut(s)) && LoggedOut(s).location == Some(LoginPath)
  {
  }

  // ---------------------------------------------------------------------------
  // Runs of transitions

  datatype Event =
    | FetchStarted
    | FetchSucceeded(user: User)
    | FetchFailed
    | RetryDue
    | LoginRequested
    | LoginOk(accessToken: string)
    | LoginError
    | RegisterRequested
    | RegisterOk
    | RegisterError
    | LogoutRequested

  function Step(s: Session, e: Event): Session
  {
    match e
    case FetchStarted => StartUserFetch(s)
    case FetchSucceeded(u) => UserFetched(s, u)
    case FetchFailed => UserFetchFailed(s)
    case RetryDue => RetryFired(s)
    case LoginRequested => LoginStarted(s)
    case LoginOk(t) => LoginSucceeded(s, t)
    case LoginError => LoginFailed(s)
    case RegisterRequested => RegisterStarted(s)
    case RegisterOk => RegisterSucceeded(s)
    case RegisterError => RegisterFailed(s)
    case LogoutRequested => LoggedOut(s)
  }

  function Run(s: Session, events: seq<Event>): Session
    decreases |events|
  {
    if events == [] then s else Run(Step(s, events[0]), events[1..])
  }

  lemma StepKeepsValid(s: Session, e: Event)
    requires Valid(s)
    ensures Valid(Step(s, e))
  {
  }

  /** After any sequence of events from a valid state, the in-memory token equals the
      persisted one. */
  lemma {:induction false} RunKeepsValid(s: Session, events: seq<Event>)
    requires Valid(s)
    ensures Valid(Run(s, events))
    ensures Run(s, events).token == Run(s, events).stored
    decreases |events|
  {
    if events != [] {
      StepKeepsValid(s, events[0]);
      RunKeepsValid(Step(s, events[0]), events[1..]);
    }
  }

  lemma TokenAlwaysPersisted(persisted: Option<string>, events: seq<Event>)
    ensures Run(Init(persisted), events).token == Run(Init(persisted), events).stored
  {
    RunKeepsValid(Init(persisted), events);
  }

  /** "No token, no user", up to one window: a user is exposed without a token only
      while a failed fetch waits for its retry. */
  predicate NoStrandedUser(s: Session)
  {
    s.token == None && SessionUser(s).Some? ==> s.query == RetryScheduled
  }

  /** Every transition keeps `NoStrandedUser` except a failing retry attempt while a user
      is cached. */
  lemma NoStrandedUserPreserved(s: Session, e: Event)
    requires Valid(s) && NoStrandedUser(s)
    requires !(e == FetchFailed && s.query == Attempt(true) && SessionUser(s).Some?)
    ensures NoStrandedUser(Step(s, e))
  {
  }

  /** A refetch that fails keeps the cached user on screen after the token is gone, with
      nothing loading, until the retry runs without a token and replaces it with `null`. */
  lemma FailedRefetchExposesUserUntilRetry(t: string, u: User)
    requires t != ""
    ensures var s := Run(Init(Some(t)), [FetchSucceeded(u), FetchStarted, FetchFailed]);
            s.token == None && s.stored == None && SessionUser(s) == Some(u) && !SessionLoading(s)
    ensures SessionUser(Run(Init(Some(t)), [FetchSucceeded(u), FetchStarted, FetchFailed, RetryDue])) == None
  {
    var s0 := Init(Some(t));
    var s1 := UserFetched(s0, u);
    var s2 := StartUserFetch(s1);
    var s3 := UserFetchFailed(s2);
    var s4 := RetryFired(s3);
    var e4: seq<Event> := [RetryDue];
    var e3: seq<Event> := [FetchFailed];
    var e2: seq<Event> := [FetchStarted] + e3;
    var e1: seq<Event> := [FetchSucceeded(u)] + e2;
    assert Run(s3, []) == s3;
    assert Run(s2, e3) == Run(s3, []);
    assert Run(s1, e2) == Run(s2, e3);
    assert Run(s0, e1) == Run(s1, e2);
    assert e1 == [FetchSucceeded(u), FetchStarted, FetchFailed];
    var f3: seq<Event> := [FetchFailed] + e4;
    var f2: seq<Event> := [FetchStarted] + f3;
    var f1: seq<Event> := [FetchSucceeded(u)] + f2;
    assert Run(s3, e4) == Run(s4, []) == s4;
    assert Run(s2, f3) == Run(s3, e4);
    assert Run(s1, f2) == Run(s2, f3);
    assert Run(s0, f1) == Run(s1, f2);
    assert f1 == [FetchSucceeded(u), FetchStarted, FetchFailed, RetryDue];
  }

  // ---------------------------------------------------------------------------
  // The provider object

  class AuthProvider {
    var token: Option<string>
    var stored: Option<string>
    var cache: map<QueryKey, CacheEntry>
    var query: UserQuery
    var loginPending: bool
    var registerPending: bool
    var location: Option<string>

    function State(): Session
      reads this
    {
      Session(token, stored, cache, query, loginPending, registerPending, location)
    }

    /** `user` as the context exposes it. */
    function CurrentUser(): Option<User>
      reads this
    {
      SessionUser(State())
    }

    /** `isLoading` as the context exposes it. */
    predicate IsLoading()
      reads this
    {
      SessionLoading(State())
    }

    /** Starts the user query's fetch when the query is enabled, idle and has no fresh
        data, as its render does. */
    method ObserveQuery()
      modifies this
      ensures State() == ObserveUserQuery(old(State()))
    {
      if token.Some? && token.value != "" && query.Idle? && (UserQueryKey !in cache || cache[UserQueryKey].invalidated) {
        query := Attempt(false);
      }
    }

    /** `useState(() => localStorage.getItem("token"))`, with an empty query cache, then the
        first render of the user query. */
    constructor (persisted: Option<string>)
      ensures State() == Init(persisted)
      ensures IsLoading() <==> persisted.Some? && persisted.value != ""
      ensures CurrentUser() == None
    {
      token, stored := persisted, persisted;
      cache := map[];
      query := Idle;
      loginPending, registerPending := false, false;
      location := None;
      new;
      ObserveQuery();
    }

    method StartUserQuery() returns (started: bool)
      modifies this
      ensures State() == StartUserFetch(old(State()))
      ensures started <==> query.Attempt? && old(query.Idle?)
    {
      started := false;
      if token.Some? && token.value != "" && query.Idle? {
        query := Attempt(false);
        started := true;
      }
    }

    method OnUserQuerySuccess(u: User)
      modifies this
      ensures State() == UserFetched(old(State()), u)
    {
      if query.Attempt? {
        cache := cache[UserQueryKey := CacheEntry(UserData(Fetched(u)), false)];
        query := Idle;
      }
    }

    method OnUserQueryError()
      modifies this
      ensures State() == UserFetchFailed(old(State()))
    {
      if query.Attempt? {
        stored := None;
        token := None;
        query := if query.isRetry then Idle else RetryScheduled;
      }
    }

    method OnRetryDue()
      modifies this
      ensures State() == RetryFired(old(State()))
    {
      if query.RetryScheduled? {
        if token.Some? && token.value != "" {
          query := Attempt(true);
        } else {
          cache := cache[UserQueryKey := CacheEntry(UserData(NoToken), false)];
          query := Idle;
        }
      }
    }

    method Login()
      modifies this
      ensures State() == LoginStarted(old(State()))
    {
      loginPending := true;
    }

    method OnLoginSuccess(accessToken: string) returns (toast: string)
      modifies this
      ensures State() == LoginSucceeded(old(State()), accessToken)
      ensures toast == WelcomeToast
    {
      stored := Some(accessToken);
      token := Some(accessToken);
      cache := Invalidate(cache, UserQueryKey);
      loginPending := false;
      location := Some(DashboardPath);
      toast := WelcomeToast;
      ObserveQuery();
    }

    method OnLoginError(detail: Option<string>) returns (toast: string)
      modifies this
      ensures State() == LoginFailed(old(State()))
      ensures toast == ErrorToast(ErrorMessage(detail, InvalidCredentialsMessage))
    {
      loginPending := false;
      toast := ErrorToast(ErrorMessage(detail, InvalidCredentialsMessage));
    }

    method Register()
      modifies this
      ensures State() == RegisterStarted(old(State()))
    {
      registerPending := true;
    }

    method OnRegisterSuccess() returns (toast: string)
      modifies this
      ensures State() == RegisterSucceeded(old(State()))
      ensures toast == RegisteredToast
    {
      registerPending := false;
      location := Some(LoginPath);
      toast := RegisteredToast;
    }

    method OnRegisterError(detail: Option<string>) returns (toast: string)
      modifies this
      ensures State() == RegisterFailed(old(State()))
      ensures toast == ErrorToast(ErrorMessage(detail, RegistrationFailedMessage))
    {
      registerPending := false;
      toast := ErrorToast(ErrorMessage(detail, RegistrationFailedMessage));
    }

    method Logout() returns (toast: string)
      modifies this
      ensures State() == LoggedOut(old(State()))
      ensures CurrentUser() == None
      ensures IsLoading() <==> old(loginPending || registerPending)
      ensures toast == LoggedOutToast
    {
      stored := None;
      token := None;
      cache := map[];
      query := Idle;
      location := Some(LoginPath);
      toast := LoggedOutToast;
    }
  }
}
