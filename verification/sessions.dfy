/**
  Sequences of calls into `OidcService` over one shared login-state store, and
  what they promise about each login: the state written by a login start is read
  back by exactly the completion that presents its CSRF token, at most once.
*/
module Sessions {
  import opened Wrappers
  import opened State
  import opened Oidc

  /** One call into the service, with every input the model takes from outside. */
  datatype Call =
    | Start(applicationId: Uuid, scope: string, state: Option<string>, rng: Randomness, storeFault: Option<string>)
    | Complete(key: string, authorizationCode: string, tokenEndpoint: TokenEndpoint, storeFault: Option<string>)

  datatype Outcome = Started(url: Result<Url, Error>) | Completed(userInfo: Result<UserInfo, Error>)

  function Step(client: CoreClient, m: Entries, call: Call): (r: (Outcome, Entries))
    ensures r.0.Completed? <==> call.Complete?
  {
    match call
    case Start(applicationId, scope, state, rng, storeFault) =>
      var (url, m') := StartLogin(client, m, applicationId, scope, state, rng, storeFault);
      (Started(url), m')
    case Complete(key, authorizationCode, tokenEndpoint, storeFault) =>
      var (userInfo, m') := CompleteLogin(client, tokenEndpoint, m, key, authorizationCode, storeFault);
      (Completed(userInfo), m')
  }

  /** The outcomes of running `calls` one after another from the entries `m`, and the final entries. */
  function Run(client: CoreClient, m: Entries, calls: seq<Call>): (r: (seq<Outcome>, Entries))
    ensures |r.0| == |calls|
    ensures forall i :: 0 <= i < |calls| ==> (r.0[i].Completed? <==> calls[i].Complete?)
    decreases |calls|
  {
    if calls == [] then ([], m)
    else
      var (outcome, m') := Step(client, m, calls[0]);
      var (rest, final) := Run(client, m', calls[1..]);
      ([outcome] + rest, final)
  }

  /** A completion for `key` that got past the destructive read: its error, if any, is not the store's. */
  predicate PassedRead(call: Call, outcome: Outcome, key: string)
  {
    call.Complete? && call.key == key && outcome.Completed? &&
    !(outcome.userInfo.Err? && outcome.userInfo.error.Store?)
  }

  /** How many completions for `key` got past the read. */
  function ReadsPassed(calls: seq<Call>, outcomes: seq<Outcome>, key: string): (n: nat)
    requires |calls| == |outcomes|
    ensures n <= |calls|
    decreases |calls|
  {
    if calls == [] then 0
    else (if PassedRead(calls[0], outcomes[0], key) then 1 else 0) + ReadsPassed(calls[1..], outcomes[1..], key)
  }

  /**
    No login start in `calls` writes under `key`: none that draws `key` as its
    CSRF secret meets a working store.
  */
  predicate NoStartUnder(calls: seq<Call>, key: string)
  {
    forall i :: 0 <= i < |calls| && calls[i].Start? && calls[i].storeFault.None? ==> calls[i].rng.csrfToken.secret != key
  }

  /**
    Replay protection: between two writes under a CSRF token, at most one
    completion presenting it gets past the destructive read, and none does if
    nothing is stored under it to begin with.
  */
  lemma {:induction false} AtMostOneReadPerLogin(client: CoreClient, m: Entries, calls: seq<Call>, key: string)
    requires NoStartUnder(calls, key)
    ensures ReadsPassed(calls, Run(client, m, calls).0, key) <= (if key in m then 1 else 0)
    decreases |calls|
  {
    if calls != [] {
      var (outcome, m') := Step(client, m, calls[0]);
      var (rest, final) := Run(client, m', calls[1..]);
      assert Run(client, m, calls).0 == [outcome] + rest;
      assert ([outcome] + rest)[1..] == rest;
      assert NoStartUnder(calls[1..], key) by {
        forall i | 0 <= i < |calls[1..]| && calls[1..][i].Start? && calls[1..][i].storeFault.None?
          ensures calls[1..][i].rng.csrfToken.secret != key
        {
          assert calls[1..][i] == calls[i + 1];
        }
      }
      AtMostOneReadPerLogin(client, m', calls[1..], key);
      if PassedRead(calls[0], outcome, key) {
        assert key in m && key !in m';
      } else {
        assert key in m' <==> key in m;
      }
    }
  }

  /**
    And exactly one does, when the state is stored and some completion presenting
    the token meets a working store.
  */
  lemma {:induction false} ExactlyOneReadPerLogin(client: CoreClient, m: Entries, calls: seq<Call>, key: string, i: nat)
    requires NoStartUnder(calls, key)
    requires key in m
    requires i < |calls| && calls[i].Complete? && calls[i].key == key && calls[i].storeFault.None?
    ensures ReadsPassed(calls, Run(client, m, calls).0, key) == 1
    decreases |calls|
  {
    var (outcome, m') := Step(client, m, calls[0]);
    var (rest, final) := Run(client, m', calls[1..]);
    assert Run(client, m, calls).0 == [outcome] + rest;
    assert ([outcome] + rest)[1..] == rest;
    assert NoStartUnder(calls[1..], key) by {
      forall j | 0 <= j < |calls[1..]| && calls[1..][j].Start? && calls[1..][j].storeFault.None?
        ensures calls[1..][j].rng.csrfToken.secret != key
      {
        assert calls[1..][j] == calls[j + 1];
      }
    }
    if PassedRead(calls[0], outcome, key) {
      AtMostOneReadPerLogin(client, m', calls[1..], key);
    } else {
      assert i != 0;
      assert key in m';
      assert calls[1..][i - 1] == calls[i];
      ExactlyOneReadPerLogin(client, m', calls[1..], key, i - 1);
    }
  }

  /**
    A completion for a token with nothing stored fails with the store's
    `NotFound` and leaves the store as it was, whatever the provider would have
    answered and whatever the code: no exchange and no check takes place.
  */
  lemma UnknownStateFailsAtRead(client: CoreClient, e1: TokenEndpoint, e2: TokenEndpoint, m: Entries,
                                key: string, code1: string, code2: string)
    requires key !in m
    ensures CompleteLogin(client, e1, m, key, code1, None) == CompleteLogin(client, e2, m, key, code2, None)
    ensures CompleteLogin(client, e1, m, key, code1, None) == (Err(Store(NotFound)), m)
  {
  }

  /**
    Once a completion has got past the read, however it ends, a second completion
    presenting the same token fails at the read.
  */
  lemma SecondCompletionFails(client: CoreClient, e1: TokenEndpoint, e2: TokenEndpoint, m: Entries, key: string,
                              code1: string, code2: string, fault: Option<string>)
    ensures var (_, m') := CompleteLogin(client, e1, m, key, code1, None);
            var (second, _) := CompleteLogin(client, e2, m', key, code2, fault);
            second.Err? && second.error.Store? &&
            (fault.None? ==> second == Err(Store(NotFound)))
  {
  }

  /**
    The round trip of one login: the completion presenting the CSRF token of a
    successful start exchanges the code with that start's PKCE verifier, checks
    the claims against that start's nonce, hands back the OAuth2 fields given to
    the start, and leaves the store as it was before the start under every other key.
  */
  lemma LoginRoundTrip(client: CoreClient, tokenEndpoint: TokenEndpoint, m: Entries,
                       applicationId: Uuid, scope: string, state: Option<string>,
                       rng: Randomness, code: string)
    ensures var (url, m1) := StartLogin(client, m, applicationId, scope, state, rng, None);
            var (userInfo, m2) := CompleteLogin(client, tokenEndpoint, m1, rng.csrfToken.secret, code, None);
            url.Ok? &&
            userInfo == FinishLogin(client, tokenEndpoint(code, rng.pkceVerifier), rng.nonce,
                                    OAuth2LoginState(applicationId, scope, state)) &&
            (userInfo.Ok? ==> userInfo.value.oauth2 == OAuth2Info(applicationId, scope, state)) &&
            m2 == m - {rng.csrfToken.secret}
  {
  }
}
