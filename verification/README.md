# kitsune OIDC login sessions, modelled in Dafny

This project models `OidcService` of kitsune's `kitsune-oidc` crate. It is the relying-party half of an
OpenID Connect login that uses the authorization-code flow with PKCE (RFC 7636). The service has two
operations.

- `authorisation_url` starts a login. It draws a PKCE pair, a CSRF token and a nonce, and builds the
  provider's authorization URL with the `email` and `profile` scopes. It writes a `LoginState` (nonce,
  PKCE verifier, and the OAuth2 application id, scope and state of the caller) into the login-state store
  under the CSRF token's secret. It returns the URL only if that write succeeded.
- `get_user_info` completes a login. It first removes the `LoginState` stored under the returned `state`,
  destroying it. It then exchanges the authorization code with the stored PKCE verifier (section 4.1 of
  RFC 6749). It requires an ID token and verifies its claims against the stored nonce (OpenID Connect Core
  1.0, section 3.1.3.7). When the claims carry `at_hash`, it checks that hash against the access token
  (sections 3.1.3.6 and 3.1.3.8). It requires `preferred_username` and `email`. The `UserInfo` it returns
  carries the stored OAuth2 fields through unchanged.

Files:

- `wrappers.dfy`: `Option` and `Result`.
- `state.dfy` (module `State`): `LoginState`, the store's entries as a `map`, the pure specifications
  `StoreSet` and `StoreGetAndRemove`, and the class `StoreBackend`, whose methods update the map in place.
- `oidc.dfy` (module `Oidc`): the provider's data (token response, claims), the error kinds, the backend
  choice of `initialise`, the pure post-read check chain `FinishLogin`, the specifications `StartLogin` and
  `CompleteLogin`, and the class `OidcService`. Its methods are proved equal to those specifications.
- `sessions.dfy` (module `Sessions`): any sequence of service calls over one store, and lemmas about it:
  single use of a login state, rejection of unknown and replayed tokens, and the start/complete round trip.

Every networked or cryptographic step is a foreign call, and enters the model as a value:

- the random PKCE pair, CSRF token and nonce: a `Randomness` argument;
- rendering the URL, verifying the ID token's claims, reading its signing algorithm, and
  `AccessTokenHash::from_token`: the function fields of `CoreClient`;
- the token endpoint's answer for one request: a `TokenEndpoint` argument of `GetUserInfo`;
- the success or failure of each store call: a `fault` argument.

`get_user_info` propagates the store's own error through `?` (`crates/kitsune-oidc/src/lib.rs:132`); for an
absent key the model returns `Error.Store(NotFound)`.

## Model

| member | source | states |
|---|---|---|
| `State.StoreSet` | crates/kitsune-oidc/src/lib.rs:116-118 | after a working `set`, the key holds exactly the value given and all other keys keep their values; a failing backend returns its error and writes nothing |
| `State.StoreGetAndRemove` | crates/kitsune-oidc/src/lib.rs:132 | the read succeeds exactly when the backend works and the key is stored, and returns the stored value; without a backend fault the key is gone afterwards whatever the outcome; an absent key gives `NotFound`; no other key changes |
| `State.StoreBackend.constructor` | crates/kitsune-oidc/src/lib.rs:72-80 | a new store has the chosen backend and no entries (for Redis, see "## Left out") |
| `State.StoreBackend.Set` | crates/kitsune-oidc/src/lib.rs:116-118 | the in-place `set` returns and leaves exactly what `StoreSet` describes |
| `State.StoreBackend.GetAndRemove` | crates/kitsune-oidc/src/lib.rs:132 | the in-place destructive read returns and leaves exactly what `StoreGetAndRemove` describes |
| `Oidc.StoreBackendFor` | crates/kitsune-oidc/src/lib.rs:72-80 | the in-memory configuration selects the in-memory backend with capacity `LoginStateStoreSize` = 100; the Redis configuration selects Redis at its URL, unless creating the pool fails, which is an error |
| `Oidc.AuthorisationRequestFor` | crates/kitsune-oidc/src/lib.rs:95-104 | the request uses the authorization-code flow, the scopes `email` then `profile`, and the fresh PKCE challenge, CSRF token and nonce |
| `Oidc.StartLogin` | crates/kitsune-oidc/src/lib.rs:88-121 | the URL is returned exactly when the store write succeeds, and is built from the authorization-code flow, the `email` and `profile` scopes, the fresh PKCE challenge, CSRF token and nonce; on success the CSRF secret holds the fresh nonce, the fresh verifier and the caller's application id, scope and state; on a store fault the store error is returned and nothing changes; no other key changes |
| `Oidc.CheckAccessTokenHash` | crates/kitsune-oidc/src/lib.rs:144-153 | the check passes exactly when the hash binding holds; it always passes when there is no `at_hash`; a failure to read the signing algorithm or to hash the token gives that error; `MismatchingHash` comes exactly when both succeed and the hashes differ |
| `Oidc.FinishLogin` | crates/kitsune-oidc/src/lib.rs:141-167 | success exactly when the independent predicate `Accepted` holds; a failed exchange, a missing ID token and failed claims give their own errors in that order; a differing recomputed hash gives `MismatchingHash`, and without `at_hash` no hash error can occur; once the hash binding holds, a missing username gives `MissingUsername` even if email is also missing, and a missing email alone gives `MissingEmail`; on success subject, username and email are the claims' and `oauth2` is the stored fields exactly; never a store error |
| `Oidc.CompleteLogin` | crates/kitsune-oidc/src/lib.rs:123-168 | without a store fault the key is gone afterwards whatever the outcome; an absent key fails with `Store(NotFound)`, and a store fault fails with the store's error, both before any exchange; a present key gives `FinishLogin` of the exchange made with exactly the stored PKCE verifier, checked against exactly the stored nonce; store errors arise exactly from the read; no other key changes |
| `Oidc.OidcService.constructor` | crates/kitsune-oidc/src/lib.rs:82-85 | the service holds the given client and store |
| `Oidc.OidcService.Initialise` | crates/kitsune-oidc/src/lib.rs:58-86 | a discovery failure is returned first; after that the service is built exactly when the backend choice succeeds, with the discovered client, the chosen backend and an empty store of its own (for Redis, see "## Left out") |
| `Oidc.OidcService.AuthorisationUrl` | crates/kitsune-oidc/src/lib.rs:88-121 | the method's result and the store it leaves are exactly those of `StartLogin` on the store before the call |
| `Oidc.OidcService.GetUserInfo` | crates/kitsune-oidc/src/lib.rs:123-168 | the method's result and the store it leaves are exactly those of `CompleteLogin` on the store before the call |
| `Sessions.Run` | crates/kitsune-oidc/src/lib.rs:88-168 | running a sequence of starts and completions gives one outcome per call, and a completion outcome exactly for each completion call |
| `Sessions.AtMostOneReadPerLogin` | crates/kitsune-oidc/src/lib.rs:128-132 | in any sequence of calls in which no login start that draws the token as its CSRF secret meets a working store, at most one completion presenting it gets past the destructive read, and none does if nothing was stored under it |
| `Sessions.ExactlyOneReadPerLogin` | crates/kitsune-oidc/src/lib.rs:128-132 | if the token is stored, no login start in the sequence draws it and meets a working store, and some completion presenting it meets a working store, exactly one completion gets past the read |
| `Sessions.UnknownStateFailsAtRead` | crates/kitsune-oidc/src/lib.rs:128-139 | for a token with nothing stored, a completion on a working store fails with `Store(NotFound)` and leaves the store unchanged, whatever the token endpoint and the code would be |
| `Sessions.SecondCompletionFails` | crates/kitsune-oidc/src/lib.rs:132-167 | after one completion has got past the read, however it ended, a second completion with the same token fails at the read, with `NotFound` when the store works |
| `Sessions.LoginRoundTrip` | crates/kitsune-oidc/src/lib.rs:107-166 | completing, on a working store, a start that met a working store, with its CSRF token, exchanges with that start's verifier, checks against its nonce, and returns the start's application id, scope and state; afterwards the store is the one from before the start with that token removed |

## Left out

- Provider discovery, issuer and redirect URL parsing, and building the client
  (`crates/kitsune-oidc/src/lib.rs:59-70`) are library and network calls. `Initialise` takes their outcome as one
  `Result` argument.
- The token-exchange request (`crates/kitsune-oidc/src/lib.rs:134-139`) is a network call. Its answer is the
  `TokenEndpoint` argument, a function of the code and the PKCE verifier.
- Random generation, the PKCE challenge's SHA-256, rendering the URL, the library's own added `openid` scope,
  ID-token signature and claims verification (including its reading of the clock for `exp` and `iat`, which the
  model holds fixed), and access-token hashing are foreign library calls. They are
  inputs or `CoreClient` fields, and nothing is proved about their values, including the uniqueness of random values.
- The Redis backend and its connection pool are a networked store. Only the backend choice and the pool-creation
  failure are modelled.
- The store's TTL expiry, the in-memory backend's capacity eviction, and atomicity under concurrent completions
  are implemented in the `store` submodule of `crate::state` (declared at `crates/kitsune-oidc/src/lib.rs:29`). That module's
  source is not part of this model, and neither is `crate::error`'s. The error variants' names are chosen from
  the `?` conversions in `lib.rs`.
- A store call that fails is modelled as changing nothing.
- Oidc.OidcService.Initialise: a Redis-backed store is modelled as empty at start-up and private to the new service;
  the real `RedisStore::new(pool)` (`crates/kitsune-oidc/src/lib.rs:78`) wraps a pool to a shared server whose keys
  may already exist and may be written by other instances.
- State.StoreBackend.constructor: likewise starts every backend, Redis included, with no entries.
- Sequences of calls in `Sessions` run one after another. Concurrent interleavings are not modelled.
