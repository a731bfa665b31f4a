# Auth core of the ucademy mono-repo, modelled in Dafny

This project models the authentication core of a small full-stack application, made up of three parts:

- a tRPC server that registers users, logs them in and refreshes JWT pairs, with a short-lived in-process user cache;
- a React client that keeps the token pair and user in a provider mirrored into local storage, and tries a token refresh once on start-up;
- a shared package of Zod schemas.

Every part is modelled as immutable datatypes and pure functions. Time is an explicit `now`. The browser's storage is a `map<string, string>`. The database is a sequence of rows.

Modules, one per source file:

- `Wrappers` (`wrappers.dfy`): `Option` and `Result`.
- `Errors` (`errors.dfy`): the tRPC error codes, what a step can throw, and the `tryCatch` reading. `tryCatch` gives `[value, null]` when a step returns and `[null, error]` when it throws. `utils/try-catch` is not part of this model.
- `Schemas` (`schemas.dfy`): `auth.dto.ts`, `auth.response.ts` and the user schema they build on. A Zod object schema is its key set: `pick`, `omit` and `extend` are set operations, and parsing strips a record to the schema's keys.
- `UserCache` (`user_cache.dfy`): `user-cache.ts`, with the cleanup timer's body as `Sweep`/`SweepEntries`.
- `UserDirectory` (`user_directory.dfy`): `users.service.ts`.
- `AuthService` (`auth_service.dfy`): `auth.service.ts`. Hashing, comparing, inserting, signing, verifying and describing a DB error are oracles in `Oracles`. Each oracle either returns or throws. Every run records the steps it performed.
- `AuthProvider` (`auth_provider.dfy`): `auth.provider.tsx`.
- `App` (`app.dfy`): the Authorization header rule, and the `AuthInitializer` controller of `App.tsx` as an event-driven state machine.
- `AuthenticatedRoute` (`authenticated_route.dfy`): the `beforeLoad` guard and `handleLogout` of `routes/_authenticated/route.tsx`.

Behaviour of the code worth knowing before reading the contracts:

- The cache still returns an entry aged exactly the TTL, because expiry is a strict `>`.
- `login` with an unknown email and `refresh` for a vanished user fail with INTERNAL_SERVER_ERROR, not NOT_FOUND. The directory throws NOT_FOUND, and the service maps every lookup error to INTERNAL_SERVER_ERROR. The service's own `!user` branches are dead (`AuthService.LoginNeverNotFound`, `AuthService.RefreshNeverNotFound`).
- Every insert failure in `register` becomes CONFLICT, not only a unique-constraint violation.
- A refresh token whose verification throws gives INTERNAL_SERVER_ERROR. Only a falsy decode gives UNAUTHORIZED.
- The code has no request authenticator and no `getMe` gate: `trpc.ts` exports only a public procedure. Neither the auth service nor the user directory reads the user cache, so there is no cache-then-directory lookup either. None of these is modelled.

## Model

| member | source | states |
|---|---|---|
| UserCache.Set | packages/server/src/utils/user-cache.ts:12-17 | the id maps to the user stamped with `now`, any earlier entry is replaced, and other entries are unchanged |
| UserCache.Get | packages/server/src/utils/user-cache.ts:19-33 | a hit exactly when the entry exists and `now - timestamp <= 60000`. An expired entry is deleted and no other. An absent id or a hit leaves the cache unchanged |
| UserCache.Invalidate | packages/server/src/utils/user-cache.ts:35-37 | removes the id only; every other entry is unchanged |
| UserCache.Clear | packages/server/src/utils/user-cache.ts:39-41 | no id remains |
| UserCache.Sweep | packages/server/src/utils/user-cache.ts:46-51 | keeps exactly the entries with `now - timestamp <= TTL`, each unchanged |
| UserCache.SweepEntries | packages/server/src/utils/user-cache.ts:45-52 | the loop over the entries that deletes expired ones computes exactly `Sweep` |
| UserCache.GetAfterSet | packages/server/src/utils/user-cache.ts:12-33 | within the TTL after a `set`, including the same instant, `get` returns the stored user and changes nothing |
| UserCache.GetAfterSetExpires | packages/server/src/utils/user-cache.ts:27-30 | past the TTL, `get` misses and the entry is gone |
| UserCache.ExpiryBoundary | packages/server/src/utils/user-cache.ts:10-30 | aged exactly 60000 ms is a hit; aged 60001 ms is a miss |
| UserCache.GetAbsent | packages/server/src/utils/user-cache.ts:19-41 | an id never set, invalidated, or cleared misses, and the miss leaves the cache unchanged |
| UserCache.SetIsolated | packages/server/src/utils/user-cache.ts:12-33 | a `set` of one id does not change what `get` returns for another |
| UserCache.SweepAgreesWithGet | packages/server/src/utils/user-cache.ts:27-51 | at the same `now`, the sweep changes no `get` result |
| UserCache.SweepAbsorbsGet | packages/server/src/utils/user-cache.ts:27-51 | a lazy eviction followed by the sweep is just the sweep, and the sweep is idempotent |
| UserDirectory.FindFirst | packages/server/src/trpc/services/users.service.ts:11 | returns the first row satisfying the predicate, or none exactly when no row does |
| UserDirectory.Query | packages/server/src/trpc/services/users.service.ts:11 | the query rejects exactly when the database is unreachable, and otherwise finds the first match |
| UserDirectory.FindById | packages/server/src/trpc/services/users.service.ts:10-24 | success returns a stored row with that id. It throws INTERNAL_SERVER_ERROR exactly when the query fails and NOT_FOUND exactly when no row has the id. It never returns an empty value |
| UserDirectory.FindByEmail | packages/server/src/trpc/services/users.service.ts:25-39 | the same contract, keyed by email |
| UserDirectory.FindByEmailUnique | packages/server/src/db/schema/users.schema.ts:8 | with unique emails, `findByEmail` returns the one row with that email |
| UserDirectory.SoftDeletedStillFound | packages/server/src/trpc/services/users.service.ts:11-26 | a row with `deletedAt` set is still found by id and by email |
| AuthService.SignPair | packages/server/src/trpc/services/auth.service.ts:36-38 | the pair succeeds exactly when both signatures do, and carries both tokens |
| AuthService.Register | packages/server/src/trpc/services/auth.service.ts:13-50 | the steps run in order (hash, insert, sign both) and stop at the first failure. Only the hash runs when it throws. Hash and insert run when the insert throws or returns no row. Otherwise all four run. It succeeds exactly when both signatures over the inserted id and input email succeed |
| AuthService.Login | packages/server/src/trpc/services/auth.service.ts:51-95 | the steps run in order (find by email, compare, sign both) and stop at the first failure. Only the lookup runs when it throws. Lookup and compare run when the compare throws or says no. Otherwise all four run. It succeeds exactly when both signatures succeed |
| AuthService.Refresh | packages/server/src/trpc/services/auth.service.ts:96-139 | the steps run in order (verify, find by id, sign both) and stop at the first failure. Only verification runs when it throws or decodes a falsy value. Verification and lookup run when the lookup throws. Otherwise all four run. It succeeds exactly when both signatures over the decoded claim succeed |
| AuthService.RegisterHashFailure | packages/server/src/trpc/services/auth.service.ts:17-21 | a hash failure gives INTERNAL_SERVER_ERROR "Failed to hash password", and no insert or signing happens |
| AuthService.RegisterInsertFailure | packages/server/src/trpc/services/auth.service.ts:24-32 | any insert failure gives CONFLICT with the described message and constraint, and no token is signed |
| AuthService.RegisterSuccess | packages/server/src/trpc/services/auth.service.ts:34-49 | both tokens are signed over the inserted id and the input email, and returned with the inserted row |
| AuthService.RegisterNoInsertedRow | packages/server/src/trpc/services/auth.service.ts:24-35 | an insert that returns no row fails with the `TypeError` from reading `insertedUser[0].id`, after the hash and insert only |
| AuthService.RegisterErrorCodes | packages/server/src/trpc/services/auth.service.ts:13-50 | register only raises INTERNAL_SERVER_ERROR or CONFLICT, or reads a missing inserted row. It raises CONFLICT exactly when hashing succeeded and the insert threw |
| AuthService.LoginLookupFailure | packages/server/src/trpc/services/auth.service.ts:54-59 | an unreachable database or an unknown email gives INTERNAL_SERVER_ERROR "Failed to find user", and nothing else runs |
| AuthService.LoginNeverNotFound | packages/server/src/trpc/services/auth.service.ts:54-64 | login never raises NOT_FOUND |
| AuthService.LoginWrongPassword | packages/server/src/trpc/services/auth.service.ts:66-76 | a password that does not match the found user's stored hash gives UNAUTHORIZED, and no token is signed |
| AuthService.LoginCompareFailure | packages/server/src/trpc/services/auth.service.ts:66-71 | a compare that throws gives INTERNAL_SERVER_ERROR "Failed to compare password" after the lookup and compare only |
| AuthService.LoginUnauthorizedExactly | packages/server/src/trpc/services/auth.service.ts:54-76 | UNAUTHORIZED is raised exactly when the user was found and the compare returned false |
| AuthService.LoginSuccess | packages/server/src/trpc/services/auth.service.ts:78-94 | the returned user is a stored row with the input email whose hash matched. The tokens are signed over its id and the input email |
| AuthService.RefreshVerifyOutcomes | packages/server/src/trpc/services/auth.service.ts:99-109 | a thrown verification gives INTERNAL_SERVER_ERROR. UNAUTHORIZED happens exactly when the decode is falsy |
| AuthService.RefreshLookupFailure | packages/server/src/trpc/services/auth.service.ts:111-116 | after a good decode, an unreachable database or an unknown id gives INTERNAL_SERVER_ERROR "Failed to find user" after verification and lookup only |
| AuthService.RefreshNeverNotFound | packages/server/src/trpc/services/auth.service.ts:111-121 | refresh never raises NOT_FOUND; a vanished user gives INTERNAL_SERVER_ERROR |
| AuthService.RefreshSignsDecodedClaim | packages/server/src/trpc/services/auth.service.ts:123-138 | a success verified a claim whose user id exists. The new pair is signed over the decoded claim and returned without a user |
| AuthService.SigningFailureIsInternal | packages/server/src/trpc/services/auth.service.ts:36-133 | in all three pipelines, when every earlier step succeeded and either signature throws, the result is INTERNAL_SERVER_ERROR "Failed to sign tokens" after all four steps |
| AuthProvider.StoredToken | packages/client/src/providers/auth.provider.tsx:21-22 | a stored token reads as null exactly when its key is missing or its value is empty |
| AuthProvider.Hydrate | packages/client/src/providers/auth.provider.tsx:20-22 | the first state has no user, and each token is read from the `accessToken`/`refreshToken` key |
| AuthProvider.AuthenticatedIsUserSet | packages/client/src/providers/auth.provider.tsx:56 | being authenticated depends on the user alone. Login sets it, logout clears it, and token setters leave it unchanged |
| AuthProvider.UpdateUser | packages/client/src/providers/auth.provider.tsx:24-26 | only the user changes |
| AuthProvider.Login | packages/client/src/providers/auth.provider.tsx:28-35 | sets both tokens and the user, writes both tokens to their keys, and leaves other keys unchanged |
| AuthProvider.Logout | packages/client/src/providers/auth.provider.tsx:37-44 | nulls all three fields and removes exactly the two token keys |
| AuthProvider.SetAccessToken | packages/client/src/providers/auth.provider.tsx:46-49 | only the access token and its key change |
| AuthProvider.SetRefreshToken | packages/client/src/providers/auth.provider.tsx:51-54 | only the refresh token and its key change |
| AuthProvider.HydrateConsistent | packages/client/src/providers/auth.provider.tsx:20-22 | the hydrated state mirrors storage and is not authenticated |
| AuthProvider.ApplyPreservesConsistent | packages/client/src/providers/auth.provider.tsx:24-54 | every transition keeps each non-null token equal to its storage entry, and keeps what a reload would hydrate |
| AuthProvider.ApplyAllPreservesConsistent | packages/client/src/providers/auth.provider.tsx:20-54 | any sequence of transitions keeps memory and storage consistent |
| AuthProvider.ReloadRestoresTokens | packages/client/src/providers/auth.provider.tsx:20-54 | in a consistent state, a reload hydrates the same truthy tokens |
| AuthProvider.LogoutThenReload | packages/client/src/providers/auth.provider.tsx:37-44 | after logout, a reload starts with no tokens and no user |
| App.AuthHeaders | packages/client/src/App.tsx:75-78 | an Authorization header is present exactly when the token is truthy, with value `"Bearer " + token`, and no other header is present |
| App.HeaderRoundTrip | packages/client/src/App.tsx:75-78 | reading the bearer value back gives the truthy token unchanged |
| App.Start | packages/client/src/App.tsx:85-87 | the first render holds the hydrated provider: memory mirrors storage, no user is set, and no refresh has been tried |
| App.StoreRefreshed | packages/client/src/App.tsx:117-120 | a refresh success puts both new tokens in memory and keeps the user |
| App.Step | packages/client/src/App.tsx:89-173 | a refresh call happens exactly when the refresh effect runs with no access token, a refresh token, and no attempt yet. The call sends the refresh token and sets the flag. The flag clears exactly when the reset effect sees an access token. Once tried, the refresh effect does nothing. The refresh effect never touches auth, and stops loading only when no token is held. The reset effect touches only the flag. A refresh success stores the pair and changes nothing else. The loading effect changes only `isLoading`. A provider action is applied to the provider state and nothing else |
| App.AtMostOneRefreshPerPeriod | packages/client/src/App.tsx:89-102 | over any events without a reset, at most one refresh call happens, and none once an attempt was made |
| App.NoTokensStopsLoading | packages/client/src/App.tsx:126-129 | with neither token, loading stops and no refresh call is made |
| App.RefreshFailureLogsOut | packages/client/src/App.tsx:121-125 | a failed refresh stops loading and logs out |
| App.RefreshSuccessAsWritten | packages/client/src/App.tsx:117-120 | a refresh success sets both tokens in memory and writes `ACCESS_TOKEN`/`REFRESH_TOKEN`, which differ from the provider's keys |
| App.NavigationOnlyOnGetMeFailure | packages/client/src/App.tsx:89-173 | a navigation is issued only by a getMe error with an access token and no refresh token, and always to `/auth/login` |
| App.GetMeErrorHandling | packages/client/src/App.tsx:160-173 | a getMe error logs out and navigates to `/auth/login` exactly when there is an access token and no refresh token; otherwise nothing happens |
| App.UserFetchedUpdatesUser | packages/client/src/App.tsx:153-158 | a fetched user goes to `updateUser`: only the user changes, the session becomes authenticated, and no command is issued |
| App.LoadingTracksFetch | packages/client/src/App.tsx:140-151 | loading follows `isFetching` only while an access token enables getMe. The loading effect leaves auth and the flag alone and issues no command |
| App.UserActionApplies | packages/client/src/providers/auth.provider.tsx:28-54 | a provider action taken through the UI is applied to the provider's state and nothing else. Afterwards a user is set exactly when the action logged in or updated the user, or a user was set and the action was not a logout |
| App.AsWrittenRefreshLostOnReload | packages/client/src/App.tsx:115-120 | counterexample: after a refresh, a reload hydrates no access token and the old refresh token |
| App.ProviderKeysStepConsistent | packages/client/src/App.tsx:89-173 | when the provider's keys are written, every event keeps memory and storage consistent |
| App.ProviderKeysRunConsistent | packages/client/src/App.tsx:85-173 | from its first render, every run of the corrected controller stays consistent |
| App.AsWrittenOnlyRefreshBreaks | packages/client/src/App.tsx:89-173 | as written, the refresh success is the only event that can break consistency |
| AuthenticatedRoute.BeforeLoad | packages/client/src/routes/_authenticated/route.tsx:6-16 | never redirects while loading. It redirects to `/auth/login` with `redirect = href` unchanged exactly when not loading and not authenticated |
| AuthenticatedRoute.HandleLogout | packages/client/src/routes/_authenticated/route.tsx:24-27 | logs out, then issues a navigation to `/auth/login` against the logged-out state |
| AuthenticatedRoute.GuardAfterLogout | packages/client/src/routes/_authenticated/route.tsx:6-27 | once loading is over, the guard redirects after `handleLogout` |
| AuthenticatedRoute.GuardAfterGetMeLogout | packages/client/src/routes/_authenticated/route.tsx:6-16 | after a getMe error that logs out, the guard redirects to the login page |
| AuthenticatedRoute.GuardIgnoresTokens | packages/client/src/routes/_authenticated/route.tsx:6-16 | the guard's decision does not depend on the tokens |
| Schemas.DtoShapesExact | packages/models/src/apis/dto/auth.dto.ts:4-15 | the register DTO has exactly name, email and password; the confirm DTO adds `confirmPassword` |
| Schemas.ResponseShapesExact | packages/models/src/apis/response/auth.response.ts:4-28 | the payload is exactly {email, userId} and the token response exactly {accessToken, refreshToken}. The register response is exactly those two plus `user`, and login has the same shape. The user response lacks `password` |
| Schemas.RefineConfirm | packages/models/src/apis/dto/auth.dto.ts:12-19 | a record is accepted, unchanged, exactly when password and confirmPassword are the same string. Otherwise the issue is "Passwords do not match" at `['confirmPassword']` |
| Schemas.DropConfirm | packages/models/src/apis/dto/auth.dto.ts:4-15 | dropping `confirmPassword` is parsing with the register DTO shape |
| Schemas.AcceptedConfirmIsRegister | packages/models/src/apis/dto/auth.dto.ts:12-19 | an accepted confirm record stripped of `confirmPassword` is a register DTO with the same fields, holding the confirmed password |
| Schemas.UserRecord | packages/models/src/schema/user.schema.ts:3-11 | a user row has exactly the seven user fields |
| Schemas.ResponseRecord | packages/models/src/apis/response/auth.response.ts:28 | a user response has exactly the user fields except `password` |
| Schemas.ToResponse | packages/models/src/apis/response/auth.response.ts:28 | the projection loses nothing but the password: putting the row's password back gives the row |
| Schemas.ProjectionIsOmit | packages/models/src/apis/response/auth.response.ts:28 | projecting a user keeps every field except `password` unchanged and drops `password` |
| Schemas.ProjectionDropsOnlyPassword | packages/models/src/apis/response/auth.response.ts:28 | the projection loses only the password: putting it back restores the row |
| Schemas.ProjectionIdempotent | packages/models/src/apis/response/auth.response.ts:28 | projecting an already projected user changes nothing |
| Schemas.RespondWith | packages/models/src/apis/response/auth.response.ts:18-20 | the register response keeps both tokens and the user without its password |
| Schemas.RegisterResponseExact | packages/models/src/apis/response/auth.response.ts:18-24 | the register/login response record has exactly three fields, and its user is the user record with `password` stripped |

## Left out

- The token codec (`utils/jwt.ts`, `token.service.ts`) is not modelled: signing and verification are oracles. HS256, secrets and expiry parsing are out of scope. A verification either returns a claim, returns a falsy value, or throws.
- Password hashing (`utils/hashing`), `getDbErrorMessage` and the logger are not part of this model. Hashing and comparing are oracles, and `getDbErrorMessage` is `describeDbError`. Logging has no effect on results.
- tryCatch: a thrown value is assumed truthy. A `throw null` would slip past the `if (error)` checks, and the model does not represent it.
- The database and ORM are a row sequence with a reachable flag. The insert is an oracle that returns the inserted rows. An empty result makes `insertedUser[0].id` throw a `TypeError` outside `tryCatch` (`NoInsertedRow`). Email uniqueness is just one reason an insert can fail.
- The tRPC output parse that strips `password` from the register and login results belongs to the router. It is out of scope, so the service results carry the full row. `Schemas.RespondWith` is that parse.
- Express/tRPC plumbing, the React components, forms and other routes, config parsing, and the unused schemas are out of scope.
- The `setInterval` timer of `startCleanup` and its cancellation are left out; only the sweep's body is modelled.
- Promise concurrency and React scheduling are left out. Everything is sequential, and each effect run is an explicit event.
- `updateToken`, `updateLoading` and `isLoading` are not fields of the provider's `AuthState`. They are modelled as plain field updates: `updateToken` sets both tokens in memory, and `updateLoading` sets `isLoading`. The initial `isLoading` is a parameter of `App.Start`. As the code stands, the provider's context value has none of the three. So `auth.updateToken` at `App.tsx:118` throws a `TypeError` before the storage writes. The catch block's `auth.updateLoading(false)` then throws again, so `logout()` is never reached. The `updateLoading` calls at lines 128, 149 and 168 throw the same way. `context.auth.isLoading` in the route guard is always undefined, so the guard never waits. The model describes the controller as if these members existed.
- The real refresh call is a command (`CallRefresh`), and its outcome comes back as an event. Navigation is also a command.
- Email and uuid formats of the Zod schemas (`z.email()`, `z.uuid()`) and date coercion are not checked. The confirm refinement is modelled on records that are already shape-valid.

## Findings

| source | as written | input that shows it | evidently intended | confidence | as-written member | corrected member |
|---|---|---|---|---|---|---|
| packages/client/src/App.tsx:118-120 | assuming `updateToken` sets both tokens in memory, after a refresh the new tokens go to memory and to storage keys `ACCESS_TOKEN`/`REFRESH_TOKEN`, but the provider hydrates from `accessToken`/`refreshToken` | storage `{refreshToken: "r0"}`, refresh returns `("a1", "r1")`, then reload: no access token, and the stale refresh token `r0` | the refreshed pair is persisted under the provider's keys, so a reload restores it | medium, not executed | App.AsWrittenRefreshLostOnReload | App.ProviderKeysRunConsistent |
