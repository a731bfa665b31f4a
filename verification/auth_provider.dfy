/**
 * The client's auth provider: the in-memory session `{accessToken,
 * refreshToken, user}` beside the browser's local storage, a string-to-string
 * map. Both tokens are hydrated from storage on start; the transitions write
 * tokens to memory and storage together.
 */
module AuthProvider {
  import opened Wrappers
  import opened Schemas

  const AccessTokenKey: string := "accessToken"
  const RefreshTokenKey: string := "refreshToken"

  type Storage = map<string, string>

  datatype AuthState = AuthState(
    accessToken: Option<string>,
    refreshToken: Option<string>,
    user: Option<UserResponse>,
    storage: Storage)

  /** JavaScript truthiness of a `string | null`: present and not empty. */
  predicate Truthy(t: Option<string>) {
    t.Some? && t.value != ""
  }

  /** A token as a truthiness test sees it: the empty string reads as null. */
  function Normal(t: Option<string>): (r: Option<string>)
    ensures r.Some? <==> Truthy(t)
    ensures r.Some? ==> r == t
  {
    if Truthy(t) then t else None
  }

  /** `localStorage.getItem(key) || null`: a missing or empty entry is null. */
  function StoredToken(storage: Storage, key: string): (t: Option<string>)
    ensures t.Some? <==> key in storage && storage[key] != ""
    ensures t.Some? ==> t.value == storage[key]
  {
    if key in storage && storage[key] != "" then Some(storage[key]) else None
  }

  /** The provider's first render: no user, tokens read back from storage. */
  function Hydrate(storage: Storage): (s: AuthState)
    ensures s.user == None && s.storage == storage
    ensures s.accessToken == StoredToken(storage, AccessTokenKey)
    ensures s.refreshToken == StoredToken(storage, RefreshTokenKey)
  {
    AuthState(StoredToken(storage, AccessTokenKey), StoredToken(storage, RefreshTokenKey), None, storage)
  }

  /** `isAuthenticated`: a user is set, whatever the tokens. */
  predicate IsAuthenticated(s: AuthState) {
    s.user.Some?
  }

  /** Being authenticated depends on the user alone; login sets it, logout clears it. */
  lemma AuthenticatedIsUserSet(s: AuthState, rs: LoginResponse, access: Option<string>, refresh: Option<string>, t: string)
    ensures IsAuthenticated(s.(accessToken := access, refreshToken := refresh)) == IsAuthenticated(s)
    ensures IsAuthenticated(Login(s, rs)) && !IsAuthenticated(Logout(s))
    ensures IsAuthenticated(SetAccessToken(s, t)) == IsAuthenticated(s)
    ensures IsAuthenticated(SetRefreshToken(s, t)) == IsAuthenticated(s)
  {
  }

  /** `updateUser`: replaces the user; tokens and storage are untouched. */
  function UpdateUser(s: AuthState, u: UserResponse): (r: AuthState)
    ensures r.user == Some(u)
    ensures r.accessToken == s.accessToken && r.refreshToken == s.refreshToken && r.storage == s.storage
  {
    s.(user := Some(u))
  }

  /** `login`: sets both tokens and the user, and writes both tokens to storage. */
  function Login(s: AuthState, rs: LoginResponse): (r: AuthState)
    ensures r.accessToken == Some(rs.accessToken) && r.refreshToken == Some(rs.refreshToken)
    ensures r.user == Some(rs.user)
    ensures r.storage.Keys == s.storage.Keys + {AccessTokenKey, RefreshTokenKey}
    ensures r.storage[AccessTokenKey] == rs.accessToken && r.storage[RefreshTokenKey] == rs.refreshToken
    ensures forall k :: k in s.storage && k != AccessTokenKey && k != RefreshTokenKey ==> r.storage[k] == s.storage[k]
  {
    AuthState(Some(rs.accessToken), Some(rs.refreshToken), Some(rs.user),
              s.storage[AccessTokenKey := rs.accessToken][RefreshTokenKey := rs.refreshToken])
  }

  /** `logout`: nulls all three fields and removes both storage keys, and only those. */
  function Logout(s: AuthState): (r: AuthState)
    ensures r.accessToken == None && r.refreshToken == None && r.user == None
    ensures r.storage.Keys == s.storage.Keys - {AccessTokenKey, RefreshTokenKey}
    ensures forall k :: k in r.storage ==> r.storage[k] == s.storage[k]
    ensures !IsAuthenticated(r)
  {
    AuthState(None, None, None, s.storage - {AccessTokenKey, RefreshTokenKey})
  }

  /** `setAccessToken`: only the access token and its storage entry change. */
  function SetAccessToken(s: AuthState, token: string): (r: AuthState)
    ensures r.accessToken == Some(token)
    ensures r.refreshToken == s.refreshToken && r.user == s.user
    ensures r.storage.Keys == s.storage.Keys + {AccessTokenKey} && r.storage[AccessTokenKey] == token
    ensures forall k :: k in s.storage && k != AccessTokenKey ==> r.storage[k] == s.storage[k]
  {
    s.(accessToken := Some(token), storage := s.storage[AccessTokenKey := token])
  }

  /** `setRefreshToken`: only the refresh token and its storage entry change. */
  function SetRefreshToken(s: AuthState, token: string): (r: AuthState)
    ensures r.refreshToken == Some(token)
    ensures r.accessToken == s.accessToken && r.user == s.user
    ensures r.storage.Keys == s.storage.Keys + {RefreshTokenKey} && r.storage[RefreshTokenKey] == token
    ensures forall k :: k in s.storage && k != RefreshTokenKey ==> r.storage[k] == s.storage[k]
  {
    s.(refreshToken := Some(token), storage := s.storage[RefreshTokenKey := token])
  }

  /** The operations the provider exposes. */
  datatype Action =
    | DoLogin(rs: LoginResponse)
    | DoLogout
    | DoUpdateUser(u: UserResponse)
    | DoSetAccessToken(token: string)
    | DoSetRefreshToken(token: string)

  function Apply(s: AuthState, a: Action): AuthState {
    match a
    case DoLogin(rs) => Login(s, rs)
    case DoLogout => Logout(s)
    case DoUpdateUser(u) => UpdateUser(s, u)
    case DoSetAccessToken(t) => SetAccessToken(s, t)
    case DoSetRefreshToken(t) => SetRefreshToken(s, t)
  }

  function ApplyAll(s: AuthState, actions: seq<Action>): AuthState
    decreases |actions|
  {
    if |actions| == 0 then s else ApplyAll(Apply(s, actions[0]), actions[1..])
  }

  // ---------------------------------------------------------------------------
  // Invariants

  /** Each token held in memory equals its storage entry. */
  predicate Mirrors(s: AuthState) {
    && (s.accessToken.Some? ==> AccessTokenKey in s.storage && s.storage[AccessTokenKey] == s.accessToken.value)
    && (s.refreshToken.Some? ==> RefreshTokenKey in s.storage && s.storage[RefreshTokenKey] == s.refreshToken.value)
  }

  /** A reload would hydrate exactly the tokens held in memory, as far as truthiness can tell. */
  predicate Restorable(s: AuthState) {
    && StoredToken(s.storage, AccessTokenKey) == Normal(s.accessToken)
    && StoredToken(s.storage, RefreshTokenKey) == Normal(s.refreshToken)
  }

  predicate Consistent(s: AuthState) {
    Mirrors(s) && Restorable(s)
  }

  /** Hydration starts consistent, whatever the storage holds. */
  lemma HydrateConsistent(storage: Storage)
    ensures Consistent(Hydrate(storage))
    ensures !IsAuthenticated(Hydrate(storage))
  {
  }

  /** Every transition keeps memory and storage consistent. */
  lemma ApplyPreservesConsistent(s: AuthState, a: Action)
    requires Consistent(s)
    ensures Consistent(Apply(s, a))
  {
  }

  /** Any sequence of transitions from the hydrated state keeps memory and storage consistent. */
  lemma {:induction false} ApplyAllPreservesConsistent(s: AuthState, actions: seq<Action>)
    requires Consistent(s)
    ensures Consistent(ApplyAll(s, actions))
    decreases |actions|
  {
    if |actions| > 0 {
      ApplyPreservesConsistent(s, actions[0]);
      ApplyAllPreservesConsistent(Apply(s, actions[0]), actions[1..]);
    }
  }

  /** In a consistent state a reload yields the same truthy tokens and no user. */
  lemma ReloadRestoresTokens(s: AuthState)
    requires Consistent(s)
    ensures Hydrate(s.storage).accessToken == Normal(s.accessToken)
    ensures Hydrate(s.storage).refreshToken == Normal(s.refreshToken)
  {
  }

  /** After any session, logging out and reloading starts signed out with no tokens. */
  lemma LogoutThenReload(s: AuthState)
    ensures Hydrate(Logout(s).storage).accessToken == None
    ensures Hydrate(Logout(s).storage).refreshToken == None
    ensures !IsAuthenticated(Hydrate(Logout(s).storage))
  {
  }
}
