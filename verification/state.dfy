/**
  The login state kept between the two halves of an OpenID Connect login, and the
  store that keeps it: a map from the CSRF token's secret to a `LoginState`.

  The store's own source (TTL, eviction, the Redis protocol) is not part of this
  model; only what the service relies on is: `set` puts a value under a key, and
  `get_and_remove` hands the value back and deletes the key, or fails.
*/
module State {
  import opened Wrappers

  /** A 128-bit UUID, as its numeric value. */
  newtype Uuid = x: int | 0 <= x < 0x1_0000_0000_0000_0000_0000_0000_0000_0000

  /** The random value bound into the ID token. */
  datatype Nonce = Nonce(secret: string)

  /** The secret half of the PKCE pair, presented at token exchange. */
  datatype PkceCodeVerifier = PkceCodeVerifier(secret: string)

  /** What the OAuth2 client application asked for; handed back after login. */
  datatype OAuth2LoginState = OAuth2LoginState(applicationId: Uuid, scope: string, state: Option<string>)

  datatype LoginState = LoginState(nonce: Nonce, pkceVerifier: PkceCodeVerifier, oauth2: OAuth2LoginState)

  /** A key that is not stored, or a fault of the backend itself. */
  datatype StoreError = NotFound | Backend(reason: string)

  /** The two interchangeable backends: in-process with a capacity, or Redis. */
  datatype Backend = InMemory(capacity: nat) | Redis(url: string)

  type Entries = map<string, LoginState>

  /**
    `set(key, value)`. `fault` is the outcome of the backend call that the model
    cannot see: `Some(reason)` when it failed, in which case nothing is written.
  */
  function StoreSet(m: Entries, key: string, value: LoginState, fault: Option<string>): (r: (Result<(), StoreError>, Entries))
    ensures fault.None? ==> r.0 == Ok(())
    ensures fault.None? ==> key in r.1 && r.1[key] == value
    ensures fault.None? ==> r.1.Keys == m.Keys + {key}
    ensures forall k :: k in m && k != key ==> k in r.1 && r.1[k] == m[k]
    ensures fault.Some? ==> r.0 == Err(Backend(fault.value)) && r.1 == m
  {
    match fault
    case Some(reason) => (Err(Backend(reason)), m)
    case None => (Ok(()), m[key := value])
  }

  /**
    `get_and_remove(key)`: the destructive read. On success the value stored under
    `key` comes back and `key` is gone; without a backend fault `key` is gone
    afterwards whatever the outcome.
  */
  function StoreGetAndRemove(m: Entries, key: string, fault: Option<string>): (r: (Result<LoginState, StoreError>, Entries))
    ensures r.0.Ok? <==> fault.None? && key in m
    ensures r.0.Ok? ==> r.0.value == m[key]
    ensures fault.None? && key !in m ==> r.0 == Err(NotFound)
    ensures fault.None? ==> key !in r.1 && r.1.Keys == m.Keys - {key}
    ensures forall k :: k in r.1 ==> k in m && r.1[k] == m[k]
    ensures fault.Some? ==> r.0 == Err(Backend(fault.value)) && r.1 == m
  {
    match fault
    case Some(reason) => (Err(Backend(reason)), m)
    case None =>
      if key in m then (Ok(m[key]), m - {key}) else (Err(NotFound), m)
  }

  /** The service's `login_state_store`: one backend, shared and updated in place. */
  class StoreBackend {
    const backend: Backend
    var entries: Entries

    constructor (backend: Backend)
      ensures this.backend == backend && entries == map[]
    {
      this.backend := backend;
      entries := map[];
    }

    method Set(key: string, value: LoginState, fault: Option<string>) returns (r: Result<(), StoreError>)
      modifies this
      ensures (r, entries) == StoreSet(old(entries), key, value, fault)
    {
      if fault.Some? {
        r := Err(Backend(fault.value));
      } else {
        entries := entries[key := value];
        r := Ok(());
      }
    }

    method GetAndRemove(key: string, fault: Option<string>) returns (r: Result<LoginState, StoreError>)
      modifies this
      ensures (r, entries) == StoreGetAndRemove(old(entries), key, fault)
    {
      if fault.Some? {
        r := Err(Backend(fault.value));
      } else if key in entries {
        r := Ok(entries[key]);
        entries := entries - {key};
      } else {
        r := Err(NotFound);
      }
    }
  }
}
