/**
 * The client application shell: the Authorization header rule of the tRPC
 * client, and `AuthInitializer`, the startup controller that tries a token
 * refresh at most once while no access token is held.
 *
 * The controller is an event-driven state machine. Each React effect of the
 * component is an event (`AccessTokenChanged` for the reset effect,
 * `RefreshEffectRan` for the refresh effect, `FetchStatus` for the loading
 * effect, and so on); the completion of the refresh call and the failure of
 * the getMe query are events too. A step returns the next state and the
 * commands it issues (the refresh call, a navigation).
 */
module App {
  import opened Wrappers
  import opened Schemas
  import opened AuthProvider

  // ---------------------------------------------------------------------------
  // The Authorization header

  const AuthorizationHeader: string := "Authorization"
  const BearerPrefix: string := "Bearer "

  /** The headers each request carries: a bearer header exactly when the token is truthy. */
  function AuthHeaders(token: Option<string>): (h: map<string, string>)
    ensures AuthorizationHeader in h <==> Truthy(token)
    ensures h.Keys <= {AuthorizationHeader}
    ensures AuthorizationHeader in h ==> h[AuthorizationHeader] == BearerPrefix + token.value
  {
    if Truthy(token) then map[AuthorizationHeader := BearerPrefix + token.value] else map[]
  }

  /** Reading a bearer token back out of the headers. */
  function BearerToken(h: map<string, string>): Option<string> {
    if AuthorizationHeader in h && |h[AuthorizationHeader]| > |BearerPrefix|
       && h[AuthorizationHeader][..|BearerPrefix|] == BearerPrefix
    then Some(h[AuthorizationHeader][|BearerPrefix|..])
    else None
  }

  /** The header carries the token unchanged: reading it back gives the token as a truthiness test sees it. */
  lemma HeaderRoundTrip(token: Option<string>)
    ensures BearerToken(AuthHeaders(token)) == Normal(token)
  {
    if Truthy(token) {
      var v := BearerPrefix + token.value;
      assert v[..|BearerPrefix|] == BearerPrefix;
      assert v[|BearerPrefix|..] == token.value;
    }
  }

  // ---------------------------------------------------------------------------
  // AuthInitializer

  /** Where the refreshed tokens are written: the keys the component uses, or the provider's. */
  datatype KeyMode = AsWritten | ProviderKeys

  const AccessTokenStorageKey: string := "ACCESS_TOKEN"
  const RefreshTokenStorageKey: string := "REFRESH_TOKEN"
  const LoginPath: string := "/auth/login"

  /** The provider state, the loading flag, and the `hasTriedRefresh` ref. */
  datatype Machine = Machine(auth: AuthState, isLoading: bool, hasTriedRefresh: bool)

  datatype Event =
    | AccessTokenChanged
    | RefreshEffectRan
    | RefreshSucceeded(tokens: TokenPair)
    | RefreshFailed
    | FetchStatus(isFetching: bool)
    | UserFetched(user: UserResponse)
    | GetMeFailed
    | UserAction(action: Action)

  datatype Command = CallRefresh(refreshToken: string) | NavigateTo(path: string)

  datatype Transition = Transition(next: Machine, commands: seq<Command>)

  /**
   * The first render: the provider hydrated from storage, so memory mirrors
   * storage and no user is set yet, and no refresh has been tried.
   */
  function Start(storage: Storage, isLoading: bool): (m: Machine)
    ensures m.auth == Hydrate(storage) && m.isLoading == isLoading
    ensures Consistent(m.auth) && !IsAuthenticated(m.auth) && !m.hasTriedRefresh
  {
    HydrateConsistent(storage);
    Machine(Hydrate(storage), isLoading, false)
  }

  /** The getMe query runs only while an access token is held. */
  predicate GetMeEnabled(m: Machine) {
    Truthy(m.auth.accessToken)
  }

  /**
   * `auth.updateToken(newTokens)` followed by the two storage writes. The
   * provider exposes no `updateToken`; it is read as setting both tokens in memory.
   */
  function StoreRefreshed(mode: KeyMode, auth: AuthState, tokens: TokenPair): (r: AuthState)
    ensures r.accessToken == Some(tokens.accessToken) && r.refreshToken == Some(tokens.refreshToken)
    ensures r.user == auth.user
  {
    match mode
    case AsWritten =>
      auth.(accessToken := Some(tokens.accessToken), refreshToken := Some(tokens.refreshToken),
            storage := auth.storage[AccessTokenStorageKey := tokens.accessToken]
                                   [RefreshTokenStorageKey := tokens.refreshToken])
    case ProviderKeys =>
      SetRefreshToken(SetAccessToken(auth, tokens.accessToken), tokens.refreshToken)
  }

  /** The number of refresh calls among some commands. */
  function Attempts(commands: seq<Command>): nat
    decreases |commands|
  {
    if |commands| == 0 then 0
    else (if commands[0].CallRefresh? then 1 else 0) + Attempts(commands[1..])
  }

  /** A reset: the reset effect runs while an access token is held. */
  predicate Resets(m: Machine, e: Event) {
    e.AccessTokenChanged? && Truthy(m.auth.accessToken)
  }

  /**
   * One event. A refresh call is issued only by the refresh effect, only when no
   * access token but a refresh token is held and no attempt has been made, and
   * the attempt sets the flag; the flag is cleared only by a reset.
   */
  function Step(mode: KeyMode, m: Machine, e: Event): (t: Transition)
    ensures Attempts(t.commands) <= 1
    ensures Attempts(t.commands) == 1 <==>
              e.RefreshEffectRan? && !m.hasTriedRefresh
              && !Truthy(m.auth.accessToken) && Truthy(m.auth.refreshToken)
    ensures Attempts(t.commands) == 1 ==>
              t.commands == [CallRefresh(m.auth.refreshToken.value)] && t.next.hasTriedRefresh
    ensures m.hasTriedRefresh && !t.next.hasTriedRefresh ==> Resets(m, e)
    ensures Resets(m, e) ==> !t.next.hasTriedRefresh
    ensures !m.hasTriedRefresh && t.next.hasTriedRefresh ==> Attempts(t.commands) == 1
    // the refresh effect: nothing at all once tried; otherwise auth is kept and
    // loading stops only when no token is held
    ensures e.RefreshEffectRan? && m.hasTriedRefresh ==> t == Transition(m, [])
    ensures e.RefreshEffectRan? ==>
              && t.next.auth == m.auth
              && (t.next.isLoading <==>
                    m.isLoading && (m.hasTriedRefresh || Truthy(m.auth.accessToken) || Truthy(m.auth.refreshToken)))
    // the reset effect touches only the flag
    ensures e.AccessTokenChanged? ==>
              t.commands == [] && t.next.auth == m.auth && t.next.isLoading == m.isLoading
    // a refresh success stores the pair and nothing else
    ensures e.RefreshSucceeded? ==>
              && t.commands == [] && t.next.isLoading == m.isLoading && t.next.hasTriedRefresh == m.hasTriedRefresh
              && t.next.auth == StoreRefreshed(mode, m.auth, e.tokens)
    // the loading effect touches only `isLoading`
    ensures e.FetchStatus? ==>
              t.commands == [] && t.next.auth == m.auth && t.next.hasTriedRefresh == m.hasTriedRefresh
    // a provider action reaches the provider and nothing else
    ensures e.UserAction? ==>
              && t.commands == [] && t.next.auth == Apply(m.auth, e.action)
              && t.next.isLoading == m.isLoading && t.next.hasTriedRefresh == m.hasTriedRefresh
  {
    match e
    case AccessTokenChanged =>
      if Truthy(m.auth.accessToken) then Transition(m.(hasTriedRefresh := false), []) else Transition(m, [])
    case RefreshEffectRan =>
      if m.hasTriedRefresh then Transition(m, [])
      else if !Truthy(m.auth.accessToken) && Truthy(m.auth.refreshToken) then
        Transition(m.(hasTriedRefresh := true), [CallRefresh(m.auth.refreshToken.value)])
      else if !Truthy(m.auth.accessToken) && !Truthy(m.auth.refreshToken) then
        Transition(m.(isLoading := false), [])
      else Transition(m, [])
    case RefreshSucceeded(tokens) =>
      Transition(m.(auth := StoreRefreshed(mode, m.auth, tokens)), [])
    case RefreshFailed =>
      Transition(m.(isLoading := false, auth := Logout(m.auth)), [])
    case FetchStatus(isFetching) =>
      if Truthy(m.auth.accessToken) then Transition(m.(isLoading := isFetching), []) else Transition(m, [])
    case UserFetched(u) =>
      Transition(m.(auth := UpdateUser(m.auth, u)), [])
    case GetMeFailed =>
      if Truthy(m.auth.accessToken) && !Truthy(m.auth.refreshToken) then
        Transition(m.(isLoading := false, auth := Logout(m.auth)), [NavigateTo(LoginPath)])
      else Transition(m, [])
    case UserAction(a) =>
      Transition(m.(auth := Apply(m.auth, a)), [])
  }

  /** A sequence of events, the commands of each step concatenated in order. */
  function Run(mode: KeyMode, m: Machine, events: seq<Event>): Transition
    decreases |events|
  {
    if |events| == 0 then Transition(m, [])
    else
      var t := Step(mode, m, events[0]);
      var rest := Run(mode, t.next, events[1..]);
      Transition(rest.next, t.commands + rest.commands)
  }

  /** No reset happens anywhere along the events: a single token-less period. */
  predicate NoReset(mode: KeyMode, m: Machine, events: seq<Event>)
    decreases |events|
  {
    |events| == 0 ||
    (!Resets(m, events[0]) && NoReset(mode, Step(mode, m, events[0]).next, events[1..]))
  }

  lemma {:induction false} AttemptsAppend(a: seq<Command>, b: seq<Command>)
    ensures Attempts(a + b) == Attempts(a) + Attempts(b)
    decreases |a|
  {
    if |a| > 0 {
      assert (a + b)[0] == a[0] && (a + b)[1..] == a[1..] + b;
      AttemptsAppend(a[1..], b);
    } else {
      assert a + b == b;
    }
  }

  /**
   * Refresh once: along any events without a reset, at most one refresh call is
   * made, and none at all once an attempt has been made.
   */
  lemma {:induction false} AtMostOneRefreshPerPeriod(mode: KeyMode, m: Machine, events: seq<Event>)
    requires NoReset(mode, m, events)
    ensures Attempts(Run(mode, m, events).commands) <= (if m.hasTriedRefresh then 0 else 1)
    decreases |events|
  {
    if |events| > 0 {
      var t := Step(mode, m, events[0]);
      AtMostOneRefreshPerPeriod(mode, t.next, events[1..]);
      AttemptsAppend(t.commands, Run(mode, t.next, events[1..]).commands);
    }
  }

  /** With neither token, the refresh effect stops loading and calls nothing. */
  lemma NoTokensStopsLoading(mode: KeyMode, m: Machine)
    requires !m.hasTriedRefresh && !Truthy(m.auth.accessToken) && !Truthy(m.auth.refreshToken)
    ensures Step(mode, m, RefreshEffectRan).commands == []
    ensures !Step(mode, m, RefreshEffectRan).next.isLoading
    ensures Step(mode, m, RefreshEffectRan).next.auth == m.auth
  {
  }

  /** A failed refresh stops loading and logs out. */
  lemma RefreshFailureLogsOut(mode: KeyMode, m: Machine)
    ensures var n := Step(mode, m, RefreshFailed).next;
            !n.isLoading && n.auth == Logout(m.auth) && !IsAuthenticated(n.auth)
  {
  }

  /**
   * A successful refresh puts both tokens in memory; as written they are stored
   * under ACCESS_TOKEN and REFRESH_TOKEN, keys the provider never reads.
   */
  lemma RefreshSuccessAsWritten(m: Machine, tokens: TokenPair)
    ensures var n := Step(AsWritten, m, RefreshSucceeded(tokens)).next;
            && n.auth.accessToken == Some(tokens.accessToken)
            && n.auth.refreshToken == Some(tokens.refreshToken)
            && n.auth.storage == m.auth.storage[AccessTokenStorageKey := tokens.accessToken]
                                               [RefreshTokenStorageKey := tokens.refreshToken]
    ensures AccessTokenStorageKey != AccessTokenKey && RefreshTokenStorageKey != RefreshTokenKey
  {
  }

  /**
   * A getMe error logs out and navigates to the login page exactly when an access
   * token but no refresh token is held; otherwise nothing happens.
   */
  lemma GetMeErrorHandling(mode: KeyMode, m: Machine)
    ensures var t := Step(mode, m, GetMeFailed);
            if Truthy(m.auth.accessToken) && !Truthy(m.auth.refreshToken) then
              t.commands == [NavigateTo(LoginPath)] && !t.next.isLoading && t.next.auth == Logout(m.auth)
            else
              t == Transition(m, [])
  {
  }

  /**
   * Navigation is issued only by a getMe error while an access token but no
   * refresh token is held, and it always goes to the login page.
   */
  lemma NavigationOnlyOnGetMeFailure(mode: KeyMode, m: Machine, e: Event)
    ensures forall c | c in Step(mode, m, e).commands && c.NavigateTo? ::
              c.path == LoginPath
              && e.GetMeFailed? && Truthy(m.auth.accessToken) && !Truthy(m.auth.refreshToken)
    ensures NavigateTo(LoginPath) in Step(mode, m, e).commands <==>
              e.GetMeFailed? && Truthy(m.auth.accessToken) && !Truthy(m.auth.refreshToken)
  {
  }

  /** A fetched user is handed to `updateUser`: only the user changes. */
  lemma UserFetchedUpdatesUser(mode: KeyMode, m: Machine, u: UserResponse)
    ensures var n := Step(mode, m, UserFetched(u)).next;
            && n.auth == UpdateUser(m.auth, u)
            && IsAuthenticated(n.auth)
            && n.isLoading == m.isLoading && n.hasTriedRefresh == m.hasTriedRefresh
    ensures Step(mode, m, UserFetched(u)).commands == []
  {
  }

  /**
   * Loading follows the getMe fetch status only while the query is enabled, and
   * the loading effect changes nothing else.
   */
  lemma LoadingTracksFetch(mode: KeyMode, m: Machine, isFetching: bool)
    ensures Step(mode, m, FetchStatus(isFetching)).next.isLoading
            == if GetMeEnabled(m) then isFetching else m.isLoading
    ensures Step(mode, m, FetchStatus(isFetching))
            == Transition(if GetMeEnabled(m) then m.(isLoading := isFetching) else m, [])
  {
  }

  /** A provider action taken through the UI is applied to the provider, and only there. */
  lemma UserActionApplies(mode: KeyMode, m: Machine, a: Action)
    ensures Step(mode, m, UserAction(a)) == Transition(m.(auth := Apply(m.auth, a)), [])
    ensures IsAuthenticated(Step(mode, m, UserAction(a)).next.auth) <==>
              a.DoLogin? || a.DoUpdateUser? || (IsAuthenticated(m.auth) && !a.DoLogout?)
  {
  }

  // ---------------------------------------------------------------------------
  // Persistence of refreshed tokens

  /**
   * As written, a refresh loses its tokens across a reload: starting from a
   * stored refresh token only, the refreshed pair is in memory but a reload
   * hydrates no access token and the old refresh token.
   */
  lemma AsWrittenRefreshLostOnReload()
    ensures var m0 := Start(map[RefreshTokenKey := "r0"], true);
            var t1 := Step(AsWritten, m0, RefreshEffectRan);
            var m2 := Step(AsWritten, t1.next, RefreshSucceeded(TokenPair("a1", "r1"))).next;
            && t1.commands == [CallRefresh("r0")]
            && m2.auth.accessToken == Some("a1")
            && Hydrate(m2.auth.storage).accessToken == None
            && Hydrate(m2.auth.storage).refreshToken == Some("r0")
            && !Consistent(m2.auth)
  {
    var m0 := Start(map[RefreshTokenKey := "r0"], true);
    var m2 := Step(AsWritten, Step(AsWritten, m0, RefreshEffectRan).next, RefreshSucceeded(TokenPair("a1", "r1"))).next;
    assert AccessTokenKey !in m2.auth.storage;
  }

  /** Writing the provider's keys instead, every event keeps memory and storage consistent. */
  lemma ProviderKeysStepConsistent(m: Machine, e: Event)
    requires Consistent(m.auth)
    ensures Consistent(Step(ProviderKeys, m, e).next.auth)
  {
    if e.UserAction? {
      ApplyPreservesConsistent(m.auth, e.action);
    }
  }

  /** ... and so does every run of the corrected controller from its first render. */
  lemma {:induction false} ProviderKeysRunConsistent(storage: Storage, isLoading: bool, events: seq<Event>)
    ensures Consistent(Run(ProviderKeys, Start(storage, isLoading), events).next.auth)
  {
    HydrateConsistent(storage);
    RunConsistent(Start(storage, isLoading), events);
  }

  lemma {:induction false} RunConsistent(m: Machine, events: seq<Event>)
    requires Consistent(m.auth)
    ensures Consistent(Run(ProviderKeys, m, events).next.auth)
    decreases |events|
  {
    if |events| > 0 {
      ProviderKeysStepConsistent(m, events[0]);
      RunConsistent(Step(ProviderKeys, m, events[0]).next, events[1..]);
    }
  }

  /** As written, the refresh success is the only event that can break consistency. */
  lemma AsWrittenOnlyRefreshBreaks(m: Machine, e: Event)
    requires Consistent(m.auth) && !e.RefreshSucceeded?
    ensures Consistent(Step(AsWritten, m, e).next.auth)
  {
    if e.UserAction? {
      ApplyPreservesConsistent(m.auth, e.action);
    }
  }
}
