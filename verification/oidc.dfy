/**
  `OidcService`: the relying-party side of an OpenID Connect login with the
  authorization-code flow and PKCE. `AuthorisationUrl` starts a login and writes
  its `LoginState` into the store; `GetUserInfo` completes it: a destructive read
  of that state, the token exchange, and an ordered chain of checks on the
  response.

  Everything networked or cryptographic is a foreign call and enters as a value:
  the random material as a `Randomness`, the library calls as the function fields
  of `CoreClient`, the token endpoint as a parameter of each completion, and the
  outcome of each store call as a `fault` parameter.
*/
module Oidc {
  import opened Wrappers
  import opened State

  /** Capacity of the in-memory login-state store. */
  const LoginStateStoreSize: nat := 100

  type Url = string

  datatype CsrfToken = CsrfToken(secret: string)
  datatype PkceCodeChallenge = PkceCodeChallenge(value: string)

  /** The values drawn by the library's random generators for one login start. */
  datatype Randomness = Randomness(
    pkceChallenge: PkceCodeChallenge,
    pkceVerifier: PkceCodeVerifier,
    csrfToken: CsrfToken,
    nonce: Nonce)

  datatype AuthenticationFlow = AuthorizationCode

  /** Everything the authorization-URL builder is given before `url()` renders it. */
  datatype AuthorizationRequest = AuthorizationRequest(
    flow: AuthenticationFlow,
    scopes: seq<string>,
    pkceChallenge: PkceCodeChallenge,
    csrfToken: CsrfToken,
    nonce: Nonce)

  datatype AccessToken = AccessToken(secret: string)
  datatype AccessTokenHash = AccessTokenHash(value: string)
  datatype SigningAlgorithm = SigningAlgorithm(name: string)

  /** A signed ID token, as received; only the verifier can look inside. */
  datatype IdToken = IdToken(raw: string)

  datatype TokenResponse = TokenResponse(accessToken: AccessToken, idToken: Option<IdToken>)

  /** The verified claims of an ID token that the service reads. */
  datatype Claims = Claims(
    subject: string,
    preferredUsername: Option<string>,
    email: Option<string>,
    accessTokenHash: Option<AccessTokenHash>)

  /**
    The discovered provider client together with the `openidconnect` library
    calls the service makes. Each is a foreign call, treated as fixed for the
    life of the process (the clock that claims verification reads for `exp` and
    `iat` is folded into `verifyClaims` and held fixed too): rendering the authorization URL, verifying an ID token's signature
    and claims against a nonce, reading an ID token's signing algorithm, and
    hashing an access token with an algorithm.
  */
  datatype CoreClient = CoreClient(
    authorizeUrl: AuthorizationRequest -> Url,
    verifyClaims: (IdToken, Nonce) -> Result<Claims, string>,
    signingAlg: IdToken -> Result<SigningAlgorithm, string>,
    accessTokenHashOf: (AccessToken, SigningAlgorithm) -> Result<AccessTokenHash, string>)

  /**
    One request's token endpoint: the outcome of exchanging an authorization code
    together with a PKCE verifier.
  */
  type TokenEndpoint = (string, PkceCodeVerifier) -> Result<TokenResponse, string>

  datatype OAuth2Info = OAuth2Info(applicationId: Uuid, scope: string, state: Option<string>)

  datatype UserInfo = UserInfo(subject: string, username: string, email: string, oauth2: OAuth2Info)

  datatype OidcStoreConfiguration = InMemory | Redis(url: string)

  /** The errors the service returns, one per `?` in the source. */
  datatype Error =
    | Discovery(reason: string)
    | CreatePool(reason: string)
    | Store(storeError: StoreError)
    | RequestToken(reason: string)
    | MissingIdToken
    | ClaimsVerification(reason: string)
    | SignatureVerification(reason: string)
    | Signing(reason: string)
    | MismatchingHash
    | MissingUsername
    | MissingEmail

  /** The store backend a configuration selects; `poolFault` is the outcome of creating the Redis pool. */
  function StoreBackendFor(config: OidcStoreConfiguration, poolFault: Option<string>): (r: Result<Backend, Error>)
    ensures config.InMemory? ==> r == Ok(Backend.InMemory(LoginStateStoreSize))
    ensures config.Redis? && poolFault.None? ==> r == Ok(Backend.Redis(config.url))
    ensures config.Redis? && poolFault.Some? ==> r == Err(CreatePool(poolFault.value))
  {
    match config
    case InMemory => Ok(Backend.InMemory(LoginStateStoreSize))
    case Redis(url) =>
      if poolFault.Some? then Err(CreatePool(poolFault.value)) else Ok(Backend.Redis(url))
  }

  /** The request `authorisation_url` hands to the URL builder. */
  function AuthorisationRequestFor(rng: Randomness): (request: AuthorizationRequest)
    ensures request.flow == AuthorizationCode && request.scopes == ["email", "profile"]
    ensures request.pkceChallenge == rng.pkceChallenge && request.csrfToken == rng.csrfToken && request.nonce == rng.nonce
  {
    AuthorizationRequest(AuthorizationCode, ["email", "profile"], rng.pkceChallenge, rng.csrfToken, rng.nonce)
  }

  /**
    `authorisation_url`, on the store's entries: the state of the new login goes
    under the CSRF token's secret, and the URL is returned only once that write
    has succeeded.
  */
  function StartLogin(client: CoreClient, m: Entries, applicationId: Uuid, scope: string, state: Option<string>,
                      rng: Randomness, storeFault: Option<string>): (r: (Result<Url, Error>, Entries))
    ensures r.0.Ok? <==> storeFault.None?
    ensures r.0.Ok? ==> r.0.value == client.authorizeUrl(
              AuthorizationRequest(AuthorizationCode, ["email", "profile"], rng.pkceChallenge, rng.csrfToken, rng.nonce))
    ensures storeFault.Some? ==> r.0 == Err(Store(Backend(storeFault.value))) && r.1 == m
    ensures storeFault.None? ==>
              var key := rng.csrfToken.secret;
              key in r.1 && r.1.Keys == m.Keys + {key} &&
              r.1[key].nonce == rng.nonce && r.1[key].pkceVerifier == rng.pkceVerifier &&
              r.1[key].oauth2 == OAuth2LoginState(applicationId, scope, state)
    ensures forall k :: k in m && k != rng.csrfToken.secret ==> k in r.1 && r.1[k] == m[k]
  {
    var authUrl := client.authorizeUrl(AuthorisationRequestFor(rng));
    var verificationData := LoginState(rng.nonce, rng.pkceVerifier, OAuth2LoginState(applicationId, scope, state));
    var (written, m') := StoreSet(m, rng.csrfToken.secret, verificationData, storeFault);
    if written.Err? then (Err(Store(written.error)), m') else (Ok(authUrl), m')
  }

  /**
    The access-token-hash binding: when the claims carry an `at_hash`, the hash of
    the access token under the ID token's signing algorithm must equal it.
  */
  predicate HashBindingHolds(client: CoreClient, accessToken: AccessToken, idToken: IdToken, expected: Option<AccessTokenHash>)
  {
    expected.Some? ==>
      var alg := client.signingAlg(idToken);
      alg.Ok? &&
      var actual := client.accessTokenHashOf(accessToken, alg.value);
      actual.Ok? && actual.value == expected.value
  }

  /** The claims carry an `at_hash`, the access token hashes, and the two differ. */
  predicate HashMismatch(client: CoreClient, accessToken: AccessToken, idToken: IdToken, expected: Option<AccessTokenHash>)
  {
    expected.Some? &&
    var alg := client.signingAlg(idToken);
    alg.Ok? &&
    var actual := client.accessTokenHashOf(accessToken, alg.value);
    actual.Ok? && actual.value != expected.value
  }

  /** The `if let Some(expected_hash)` block: `None` when it lets the login through, else its error. */
  function CheckAccessTokenHash(client: CoreClient, accessToken: AccessToken, idToken: IdToken,
                                expected: Option<AccessTokenHash>): (r: Option<Error>)
    ensures r.None? <==> HashBindingHolds(client, accessToken, idToken, expected)
    ensures expected.None? ==> r.None?
    ensures expected.Some? && client.signingAlg(idToken).Err? ==>
              r == Some(SignatureVerification(client.signingAlg(idToken).error))
    ensures expected.Some? && client.signingAlg(idToken).Ok? &&
            client.accessTokenHashOf(accessToken, client.signingAlg(idToken).value).Err? ==>
              r == Some(Signing(client.accessTokenHashOf(accessToken, client.signingAlg(idToken).value).error))
    ensures r == Some(MismatchingHash) <==> HashMismatch(client, accessToken, idToken, expected)
    ensures r.Some? && r.value != MismatchingHash ==> r.value.SignatureVerification? || r.value.Signing?
  {
    match expected
    case None => None
    case Some(expectedHash) =>
      match client.signingAlg(idToken)
      case Err(e) => Some(SignatureVerification(e))
      case Ok(alg) =>
        match client.accessTokenHashOf(accessToken, alg)
        case Err(e) => Some(Signing(e))
        case Ok(actualHash) => if actualHash != expectedHash then Some(MismatchingHash) else None
  }

  /**
    What a provider response must satisfy for a login to complete, stated on its
    own: a successful exchange with an ID token whose claims verify against the
    nonce, keep the hash binding, and carry a username and an email.
  */
  predicate Accepted(client: CoreClient, exchanged: Result<TokenResponse, string>, nonce: Nonce)
  {
    exchanged.Ok? && exchanged.value.idToken.Some? &&
    var claims := client.verifyClaims(exchanged.value.idToken.value, nonce);
    claims.Ok? &&
    HashBindingHolds(client, exchanged.value.accessToken, exchanged.value.idToken.value, claims.value.accessTokenHash) &&
    claims.value.preferredUsername.Some? && claims.value.email.Some?
  }

  /**
    The checks `get_user_info` runs once the login state has been read: on the
    outcome of the token exchange, the stored nonce and the stored OAuth2 fields.
  */
  function FinishLogin(client: CoreClient, exchanged: Result<TokenResponse, string>, nonce: Nonce,
                       oauth2: OAuth2LoginState): (r: Result<UserInfo, Error>)
    ensures r.Ok? <==> Accepted(client, exchanged, nonce)
    ensures exchanged.Err? ==> r == Err(RequestToken(exchanged.error))
    ensures exchanged.Ok? && exchanged.value.idToken.None? ==> r == Err(MissingIdToken)
    ensures exchanged.Ok? && exchanged.value.idToken.Some? ==>
              var idToken := exchanged.value.idToken.value;
              var verified := client.verifyClaims(idToken, nonce);
              (verified.Err? ==> r == Err(ClaimsVerification(verified.error))) &&
              (verified.Ok? ==>
                 var claims := verified.value;
                 (claims.accessTokenHash.None? ==> !r.Err? || !(r.error.MismatchingHash? || r.error.SignatureVerification? || r.error.Signing?)) &&
                 (HashMismatch(client, exchanged.value.accessToken, idToken, claims.accessTokenHash) ==>
                    r == Err(MismatchingHash)) &&
                 (HashBindingHolds(client, exchanged.value.accessToken, idToken, claims.accessTokenHash) ==>
                    (claims.preferredUsername.None? ==> r == Err(MissingUsername)) &&
                    (claims.preferredUsername.Some? && claims.email.None? ==> r == Err(MissingEmail))) &&
                 (r.Ok? ==> r.value.subject == claims.subject &&
                            r.value.username == claims.preferredUsername.value &&
                            r.value.email == claims.email.value))
    ensures exchanged.Ok? && exchanged.value.idToken.Some? ==>
              var idToken := exchanged.value.idToken.value;
              var verified := client.verifyClaims(idToken, nonce);
              verified.Ok? ==>
                var hashCheck := CheckAccessTokenHash(client, exchanged.value.accessToken, idToken, verified.value.accessTokenHash);
                hashCheck.Some? ==> r == Err(hashCheck.value)
    ensures r.Ok? ==> r.value.oauth2 == OAuth2Info(oauth2.applicationId, oauth2.scope, oauth2.state)
    ensures r.Err? ==> !r.error.Store? && !r.error.Discovery? && !r.error.CreatePool?
  {
    match exchanged
    case Err(e) => Err(RequestToken(e))
    case Ok(tokenResponse) =>
      match tokenResponse.idToken
      case None => Err(MissingIdToken)
      case Some(idToken) =>
        match client.verifyClaims(idToken, nonce)
        case Err(e) => Err(ClaimsVerification(e))
        case Ok(claims) =>
          match CheckAccessTokenHash(client, tokenResponse.accessToken, idToken, claims.accessTokenHash)
          case Some(e) => Err(e)
          case None =>
            match claims.preferredUsername
            case None => Err(MissingUsername)
            case Some(username) =>
              match claims.email
              case None => Err(MissingEmail)
              case Some(email) =>
                Ok(UserInfo(claims.subject, username, email,
                            OAuth2Info(oauth2.applicationId, oauth2.scope, oauth2.state)))
  }

  /**
    `get_user_info`, on the store's entries: the destructive read of the state
    under `key` comes first; only then the exchange with the stored PKCE verifier
    and the checks against the stored nonce.
  */
  function CompleteLogin(client: CoreClient, tokenEndpoint: TokenEndpoint, m: Entries, key: string,
                         authorizationCode: string, storeFault: Option<string>): (r: (Result<UserInfo, Error>, Entries))
    ensures storeFault.None? ==> key !in r.1 && r.1.Keys == m.Keys - {key}
    ensures storeFault.Some? ==> r.0 == Err(Store(Backend(storeFault.value))) && r.1 == m
    ensures storeFault.None? && key !in m ==> r.0 == Err(Store(NotFound))
    ensures storeFault.None? && key in m ==>
              r.0 == FinishLogin(client, tokenEndpoint(authorizationCode, m[key].pkceVerifier), m[key].nonce, m[key].oauth2)
    ensures r.0.Ok? ==>
              key in m &&
              r.0.value.oauth2 == OAuth2Info(m[key].oauth2.applicationId, m[key].oauth2.scope, m[key].oauth2.state)
    ensures r.0.Err? && r.0.error.Store? <==> storeFault.Some? || key !in m
    ensures forall k :: k in r.1 ==> k in m && r.1[k] == m[k]
  {
    var (stored, m') := StoreGetAndRemove(m, key, storeFault);
    match stored
    case Err(e) => (Err(Store(e)), m')
    case Ok(loginState) =>
      var tokenResponse := tokenEndpoint(authorizationCode, loginState.pkceVerifier);
      (FinishLogin(client, tokenResponse, loginState.nonce, loginState.oauth2), m')
  }

  class OidcService {
    const client: CoreClient
    const loginStateStore: StoreBackend

    constructor (client: CoreClient, loginStateStore: StoreBackend)
      ensures this.client == client && this.loginStateStore == loginStateStore
    {
      this.client := client;
      this.loginStateStore := loginStateStore;
    }

    /**
      `initialise`: `discovered` is the outcome of parsing the issuer and redirect
      URLs and of provider discovery; then the configured store backend is built.
    */
    static method Initialise(config: OidcStoreConfiguration, discovered: Result<CoreClient, Error>,
                             poolFault: Option<string>) returns (r: Result<OidcService, Error>)
      ensures discovered.Err? ==> r == Err(discovered.error)
      ensures discovered.Ok? ==> (r.Ok? <==> StoreBackendFor(config, poolFault).Ok?)
      ensures discovered.Ok? && r.Err? ==> r.error == StoreBackendFor(config, poolFault).error
      ensures r.Ok? ==> fresh(r.value) && fresh(r.value.loginStateStore) &&
                        r.value.client == discovered.value &&
                        r.value.loginStateStore.backend == StoreBackendFor(config, poolFault).value &&
                        r.value.loginStateStore.entries == map[]
    {
      if discovered.Err? {
        return Err(discovered.error);
      }
      var backend := StoreBackendFor(config, poolFault);
      if backend.Err? {
        return Err(backend.error);
      }
      var store := new StoreBackend(backend.value);
      var service := new OidcService(discovered.value, store);
      r := Ok(service);
    }

    method AuthorisationUrl(applicationId: Uuid, scope: string, state: Option<string>,
                            rng: Randomness, storeFault: Option<string>) returns (r: Result<Url, Error>)
      modifies loginStateStore
      ensures (r, loginStateStore.entries) ==
              StartLogin(client, old(loginStateStore.entries), applicationId, scope, state, rng, storeFault)
    {
      var authUrl := client.authorizeUrl(AuthorisationRequestFor(rng));
      var verificationData := LoginState(rng.nonce, rng.pkceVerifier, OAuth2LoginState(applicationId, scope, state));
      var written := loginStateStore.Set(rng.csrfToken.secret, verificationData, storeFault);
      if written.Err? {
        return Err(Store(written.error));
      }
      r := Ok(authUrl);
    }

    method GetUserInfo(state: string, authorizationCode: string, tokenEndpoint: TokenEndpoint,
                       storeFault: Option<string>) returns (r: Result<UserInfo, Error>)
      modifies loginStateStore
      ensures (r, loginStateStore.entries) ==
              CompleteLogin(client, tokenEndpoint, old(loginStateStore.entries), state, authorizationCode, storeFault)
    {
      var stored := loginStateStore.GetAndRemove(state, storeFault);
      if stored.Err? {
        return Err(Store(stored.error));
      }
      var loginState := stored.value;
      var tokenResponse := tokenEndpoint(authorizationCode, loginState.pkceVerifier);
      r := FinishLogin(client, tokenResponse, loginState.nonce, loginState.oauth2);
    }
  }
}
