/**
 * The tokens manager of the Keycloak admin client: it caches an access
 * token and a refresh token with their expiry times, and on each request
 * either returns the cached access token, refreshes it with the refresh
 * token, or grants new tokens with the account's password.
 *
 * The clock is an oracle indexed by the number of times it was read, and
 * the OpenID Connect client an oracle indexed by the number of requests
 * made so far; both are constants of the manager. Timestamps are whole
 * seconds.
 */
module Tokens {
  import opened Wrappers

  /** The threshold, in seconds, by which stored expiries are brought forward, unless the caller gives another. */
  const DefaultExpirationThreshold: int := 5

  /** The base URL of the legacy `KeycloakAdmin` when the caller gives none. */
  const LegacyDefaultBaseUrl: string := "http://localhost:8080/auth"

  /** What the identity provider answers: the four fields of the token response the manager reads. */
  datatype TokenResponse = TokenResponse(
    accessToken: Option<string>,
    refreshToken: Option<string>,
    expiresIn: int,
    refreshExpiresIn: int)

  /** A request to the identity provider. */
  datatype OidcRequest =
    | PasswordGrant(username: string, password: string)
    | RefreshGrant(refreshToken: string)

  /** An exception raised by the identity provider for the request numbered `call`. */
  datatype OidcError = OidcError(call: nat)

  datatype TokenError =
    | OidcFailed(error: OidcError)
    /** "Unable to obtain access token" */
    | NoAccessToken
    /** "Unable to refresh tokens, no refresh_token" */
    | NoRefreshToken
    /** The legacy tree compares a missing refresh expiry with the clock, which raises `TypeError`. */
    | ExpiryNotComparable

  /** The cached tokens and their expiry times; `None` until tokens have been stored. */
  datatype TokenState = TokenState(
    accessToken: Option<string>,
    accessExpireAt: Option<int>,
    refreshToken: Option<string>,
    refreshExpireAt: Option<int>)

  /** What a fresh manager holds: nothing. */
  const NoTokens: TokenState := TokenState(None, None, None, None)

  /** What a request for an access token does with the cache. */
  datatype Action =
    | UseCached
    | RefreshWith(refreshToken: string)
    | GrantPassword
    | CompareFails

  /** The cached access token can be returned as is at time `now`. */
  predicate AccessUsable(st: TokenState, now: int) {
    st.accessToken.Some? && st.accessExpireAt.Some? && st.accessExpireAt.value >= now
  }

  /** The cached refresh token can still be used at time `now`. */
  predicate RefreshUsable(st: TokenState, now: int) {
    st.refreshToken.Some? && st.refreshExpireAt.Some? && st.refreshExpireAt.value >= now
  }

  /** The current tree's choice, the clock read once at `now`. */
  function Decision(st: TokenState, now: int): Action {
    if AccessUsable(st, now) then UseCached
    else if RefreshUsable(st, now) then RefreshWith(st.refreshToken.value)
    else GrantPassword
  }

  /** The request that `a` sends; none when the cache is used or the choice fails. */
  function RequestsOf(a: Action, username: string, password: string): (r: seq<OidcRequest>)
    ensures |r| <= 1
    ensures r == [] <==> a.UseCached? || a.CompareFails?
  {
    match a
    case UseCached => []
    case RefreshWith(t) => [RefreshGrant(t)]
    case GrantPassword => [PasswordGrant(username, password)]
    case CompareFails => []
  }

  /** The current tree's `_store_tokens` at time `now`: both expiries are `now - threshold + expires_in`. */
  function Stored(resp: TokenResponse, now: int, threshold: int): TokenState {
    TokenState(resp.accessToken, Some(now - threshold + resp.expiresIn),
               resp.refreshToken, Some(now - threshold + resp.refreshExpiresIn))
  }

  /**
   * The legacy `_store_tokens`: each expiry is `now + expires_in - threshold`
   * with its own reading of the clock, `t1` for the access token and `t2`
   * for the refresh token.
   */
  function LegacyStored(resp: TokenResponse, t1: int, t2: int, threshold: int): TokenState {
    TokenState(resp.accessToken, Some(t1 + resp.expiresIn - threshold),
               resp.refreshToken, Some(t2 + resp.refreshExpiresIn - threshold))
  }

  /**
   * The legacy choice, reading the clock from reading number `n` on: the
   * access expiry is compared with a reading only when both access fields
   * are present, and the refresh expiry with a further reading only when a
   * refresh token is held. Returns the choice and the number of readings.
   */
  function LegacyDecision(st: TokenState, clock: nat -> int, n: nat): (Action, nat) {
    var accessKnown := st.accessToken.Some? && st.accessExpireAt.Some?;
    var readings := if accessKnown then 1 else 0;
    if accessKnown && !(st.accessExpireAt.value < clock(n)) then (UseCached, readings)
    else if st.refreshToken.None? then (GrantPassword, readings)
    else if st.refreshExpireAt.None? then (CompareFails, readings + 1)
    else if st.refreshExpireAt.value < clock(n + readings) then (GrantPassword, readings + 1)
    else (RefreshWith(st.refreshToken.value), readings + 1)
  }

  /** A refresh token is never held without its expiry; what `_store_tokens` keeps true. */
  predicate Paired(st: TokenState) {
    st.refreshExpireAt.None? ==> st.refreshToken.None?
  }

  /** A fresh manager has no tokens, so its first request grants by password. */
  lemma FreshManagerGrants(now: int)
    ensures Decision(NoTokens, now) == GrantPassword
    ensures forall clock: nat -> int, n: nat :: LegacyDecision(NoTokens, clock, n) == (GrantPassword, 0)
  {
  }

  /**
   * The three outcomes of the current tree's choice, each in terms of the
   * cache: the cached token when it is present and unexpired; a refresh
   * with the held token when only the refresh token is usable; a password
   * grant otherwise.
   */
  lemma DecisionCases(st: TokenState, now: int)
    ensures Decision(st, now) == UseCached <==> AccessUsable(st, now)
    ensures (exists t :: Decision(st, now) == RefreshWith(t))
            <==> !AccessUsable(st, now) && RefreshUsable(st, now)
    ensures Decision(st, now).RefreshWith? ==> Some(Decision(st, now).refreshToken) == st.refreshToken
    ensures Decision(st, now) == GrantPassword <==> !AccessUsable(st, now) && !RefreshUsable(st, now)
    ensures Decision(st, now) != CompareFails
  {
    if !AccessUsable(st, now) && RefreshUsable(st, now) {
      assert Decision(st, now) == RefreshWith(st.refreshToken.value);
    }
  }

  /**
   * Tokens just stored at time `t` are used from the cache exactly until
   * `t - threshold + expires_in`, and only if an access token came back.
   */
  lemma StoredCachedUntil(resp: TokenResponse, t: int, threshold: int, now: int)
    ensures Decision(Stored(resp, t, threshold), now) == UseCached
            <==> resp.accessToken.Some? && now <= t - threshold + resp.expiresIn
  {
  }

  /**
   * The threshold is a margin: a token served from the cache at `now`
   * still has at least `threshold` seconds of the lifetime the identity
   * provider gave it, counted from when it was stored.
   */
  lemma CachedTokenMargin(resp: TokenResponse, t: int, threshold: int, now: int)
    requires Decision(Stored(resp, t, threshold), now) == UseCached
    ensures now + threshold <= t + resp.expiresIn
  {
    StoredCachedUntil(resp, t, threshold, now);
  }

  /**
   * On a cache where every refresh token has its expiry and a clock that
   * reads the same throughout, the legacy choice is the current one, it
   * never compares a missing expiry, and it reads the clock at most twice.
   */
  lemma LegacyAgreesWhenPaired(st: TokenState, clock: nat -> int, n: nat)
    requires Paired(st)
    requires forall j :: n <= j ==> clock(j) == clock(n)
    ensures LegacyDecision(st, clock, n).0 == Decision(st, clock(n))
    ensures LegacyDecision(st, clock, n).1 <= 2
  {
    var readings := if st.accessToken.Some? && st.accessExpireAt.Some? then 1 else 0;
    assert clock(n + readings) == clock(n);
  }

  /** The legacy choice fails only on a refresh token held without its expiry. */
  lemma LegacyComparesOnlyUnpaired(st: TokenState, clock: nat -> int, n: nat)
    ensures LegacyDecision(st, clock, n).0 == CompareFails
            <==> !AccessUsable(st, clock(n)) && !Paired(st)
  {
  }

  /** Storing keeps every refresh token paired with its expiry, in both trees. */
  lemma StoringPairs(resp: TokenResponse, t1: int, t2: int, threshold: int)
    ensures Paired(Stored(resp, t1, threshold))
    ensures Paired(LegacyStored(resp, t1, t2, threshold))
    ensures Paired(NoTokens)
  {
  }

  /** Both trees store the same expiries when the clock reads the same: the two formulas differ only in order. */
  lemma StoredAgree(resp: TokenResponse, t: int, threshold: int)
    ensures LegacyStored(resp, t, t, threshold) == Stored(resp, t, threshold)
  {
  }

  /** The legacy refresh expiry uses a later clock reading than the access expiry, and so can be later by that much. */
  lemma LegacyStoredGap(resp: TokenResponse, t1: int, t2: int, threshold: int)
    ensures var st := LegacyStored(resp, t1, t2, threshold);
      st.refreshExpireAt.value - st.accessExpireAt.value == (t2 - t1) + (resp.refreshExpiresIn - resp.expiresIn)
  {
  }

  /** The current tree's `TokensManager`. */
  class TokensManager {
    const username: string
    const password: string
    const threshold: int
    /** `clock(n)`: the n-th reading of `datetime.now()`. */
    const clock: nat -> int
    /** `oidc(n, q)`: what the identity provider answers to `q` as the n-th request. */
    const oidc: (nat, OidcRequest) -> Result<TokenResponse, OidcError>
    var state: TokenState
    var clockReads: nat
    /** The requests sent to the identity provider, in order. */
    var requests: seq<OidcRequest>

    constructor (username: string, password: string, threshold: int,
                 clock: nat -> int, oidc: (nat, OidcRequest) -> Result<TokenResponse, OidcError>)
      ensures this.username == username && this.password == password && this.threshold == threshold
      ensures this.clock == clock && this.oidc == oidc
      ensures state == NoTokens && clockReads == 0 && requests == []
    {
      this.username := username;
      this.password := password;
      this.threshold := threshold;
      this.clock := clock;
      this.oidc := oidc;
      state := NoTokens;
      clockReads := 0;
      requests := [];
    }

    /** Sends `q` to the identity provider. */
    method Send(q: OidcRequest) returns (r: Result<TokenResponse, OidcError>)
      modifies this`requests
      ensures requests == old(requests) + [q]
      ensures r == oidc(|old(requests)|, q)
    {
      r := oidc(|requests|, q);
      requests := requests + [q];
    }

    /** `datetime.datetime.now().timestamp()` */
    method Now() returns (t: int)
      modifies this`clockReads
      ensures clockReads == old(clockReads) + 1
      ensures t == clock(old(clockReads))
    {
      t := clock(clockReads);
      clockReads := clockReads + 1;
    }

    /** `_store_tokens`: reads the clock once, for both expiries. */
    method StoreTokens(resp: TokenResponse)
      modifies this`state, this`clockReads
      ensures clockReads == old(clockReads) + 1
      ensures state == Stored(resp, clock(old(clockReads)), threshold)
    {
      var now := Now();
      var expireFrom := now - threshold;
      state := TokenState(resp.accessToken, Some(expireFrom + resp.expiresIn),
                          resp.refreshToken, Some(expireFrom + resp.refreshExpiresIn));
    }

    /** `_grant_password_tokens`: an error from the identity provider leaves the cache as it was. */
    method GrantPasswordTokens() returns (r: Result<(), TokenError>)
      modifies this`state, this`clockReads, this`requests
      ensures requests == old(requests) + [PasswordGrant(username, password)]
      ensures var resp := oidc(|old(requests)|, PasswordGrant(username, password));
        if resp.Err? then r == Err(OidcFailed(resp.error)) && state == old(state) && clockReads == old(clockReads)
        else r == Ok(()) && state == Stored(resp.value, clock(old(clockReads)), threshold) && clockReads == old(clockReads) + 1
    {
      var tokens := Send(PasswordGrant(username, password));
      if tokens.Err? {
        return Err(OidcFailed(tokens.error));
      }
      StoreTokens(tokens.value);
      r := Ok(());
    }

    /** `_refresh_tokens`: raises when no refresh token is held, before any request. */
    method RefreshTokens() returns (r: Result<(), TokenError>)
      modifies this`state, this`clockReads, this`requests
      ensures old(state).refreshToken.None? ==>
        r == Err(NoRefreshToken) && state == old(state) && clockReads == old(clockReads) && requests == old(requests)
      ensures old(state).refreshToken.Some? ==>
        var q := RefreshGrant(old(state).refreshToken.value);
        var resp := oidc(|old(requests)|, q);
        && requests == old(requests) + [q]
        && if resp.Err? then r == Err(OidcFailed(resp.error)) && state == old(state) && clockReads == old(clockReads)
           else r == Ok(()) && state == Stored(resp.value, clock(old(clockReads)), threshold) && clockReads == old(clockReads) + 1
    {
      if state.refreshToken.None? {
        return Err(NoRefreshToken);
      }
      var tokens := Send(RefreshGrant(state.refreshToken.value));
      if tokens.Err? {
        return Err(OidcFailed(tokens.error));
      }
      StoreTokens(tokens.value);
      r := Ok(());
    }

    /**
     * `get_access_token`: reads the clock once, then acts as `Decision`
     * says; after a renewal it raises if the identity provider sent no
     * access token.
     */
    method GetAccessToken() returns (r: Result<string, TokenError>)
      modifies this`state, this`clockReads, this`requests
      ensures var a := Decision(old(state), clock(old(clockReads)));
        requests == old(requests) + RequestsOf(a, username, password)
      ensures var a := Decision(old(state), clock(old(clockReads)));
        a == UseCached ==>
          && state == old(state) && clockReads == old(clockReads) + 1
          && r == Ok(old(state).accessToken.value)
      ensures var a := Decision(old(state), clock(old(clockReads)));
        a != UseCached ==>
          var resp := oidc(|old(requests)|, RequestsOf(a, username, password)[0]);
          if resp.Err? then
            && r == Err(OidcFailed(resp.error))
            && state == old(state) && clockReads == old(clockReads) + 1
          else
            && state == Stored(resp.value, clock(old(clockReads) + 1), threshold)
            && clockReads == old(clockReads) + 2
            && r == (if resp.value.accessToken.None? then Err(NoAccessToken) else Ok(resp.value.accessToken.value))
    {
      var now := Now();
      if state.accessToken.None? || state.accessExpireAt.None? || state.accessExpireAt.value < now {
        var renewed;
        if state.refreshToken.None? || state.refreshExpireAt.None? || state.refreshExpireAt.value < now {
          renewed := GrantPasswordTokens();
        } else {
          renewed := RefreshTokens();
        }
        if renewed.Err? {
          return Err(renewed.error);
        }
      }
      if state.accessToken.None? {
        return Err(NoAccessToken);
      }
      r := Ok(state.accessToken.value);
    }
  }

  /**
   * The legacy `TokensManager`: the clock is read for each comparison and
   * for each stored expiry, a refresh token without expiry is compared all
   * the same, and the cached access token is returned even when it is
   * `None`.
   */
  class LegacyTokensManager {
    const username: string
    const password: string
    const threshold: int
    const clock: nat -> int
    const oidc: (nat, OidcRequest) -> Result<TokenResponse, OidcError>
    var state: TokenState
    var clockReads: nat
    var requests: seq<OidcRequest>

    constructor (username: string, password: string, threshold: int,
                 clock: nat -> int, oidc: (nat, OidcRequest) -> Result<TokenResponse, OidcError>)
      ensures this.username == username && this.password == password && this.threshold == threshold
      ensures this.clock == clock && this.oidc == oidc
      ensures state == NoTokens && clockReads == 0 && requests == []
    {
      this.username := username;
      this.password := password;
      this.threshold := threshold;
      this.clock := clock;
      this.oidc := oidc;
      state := NoTokens;
      clockReads := 0;
      requests := [];
    }

    method Now() returns (t: int)
      modifies this`clockReads
      ensures clockReads == old(clockReads) + 1
      ensures t == clock(old(clockReads))
    {
      t := clock(clockReads);
      clockReads := clockReads + 1;
    }

    /** `_store_tokens`: one clock reading per expiry. */
    method StoreTokens(resp: TokenResponse)
      modifies this`state, this`clockReads
      ensures clockReads == old(clockReads) + 2
      ensures state == LegacyStored(resp, clock(old(clockReads)), clock(old(clockReads) + 1), threshold)
    {
      var t1 := Now();
      var accessExpireAt := t1 + resp.expiresIn - threshold;
      var t2 := Now();
      state := TokenState(resp.accessToken, Some(accessExpireAt),
                          resp.refreshToken, Some(t2 + resp.refreshExpiresIn - threshold));
    }

    /** `_grant_password_tokens` and `_refresh_tokens`: sends `q` and stores what comes back. */
    method Renew(q: OidcRequest) returns (r: Result<(), TokenError>)
      modifies this`state, this`clockReads, this`requests
      ensures requests == old(requests) + [q]
      ensures var resp := oidc(|old(requests)|, q);
        if resp.Err? then r == Err(OidcFailed(resp.error)) && state == old(state) && clockReads == old(clockReads)
        else
          && r == Ok(())
          && state == LegacyStored(resp.value, clock(old(clockReads)), clock(old(clockReads) + 1), threshold)
          && clockReads == old(clockReads) + 2
    {
      var tokens := oidc(|requests|, q);
      requests := requests + [q];
      if tokens.Err? {
        return Err(OidcFailed(tokens.error));
      }
      StoreTokens(tokens.value);
      r := Ok(());
    }

    /** `get_access_token`, acting as `LegacyDecision` says. */
    method GetAccessToken() returns (r: Result<Option<string>, TokenError>)
      modifies this`state, this`clockReads, this`requests
      ensures var (a, readings) := LegacyDecision(old(state), clock, old(clockReads));
        requests == old(requests) + RequestsOf(a, username, password)
      ensures var (a, readings) := LegacyDecision(old(state), clock, old(clockReads));
        (a == UseCached ==>
          state == old(state) && clockReads == old(clockReads) + readings && r == Ok(old(state).accessToken))
        && (a == CompareFails ==>
          state == old(state) && clockReads == old(clockReads) + readings && r == Err(ExpiryNotComparable))
      ensures var (a, readings) := LegacyDecision(old(state), clock, old(clockReads));
        (a.GrantPassword? || a.RefreshWith?) ==>
          var n := old(clockReads) + readings;
          var resp := oidc(|old(requests)|, RequestsOf(a, username, password)[0]);
          if resp.Err? then
            r == Err(OidcFailed(resp.error)) && state == old(state) && clockReads == n
          else
            && state == LegacyStored(resp.value, clock(n), clock(n + 1), threshold)
            && clockReads == n + 2
            && r == Ok(resp.value.accessToken)
    {
      ghost var n0 := clockReads;
      var renew := true;
      if state.accessToken.Some? && state.accessExpireAt.Some? {
        var now := Now();
        renew := state.accessExpireAt.value < now;
      }
      if renew {
        var renewed;
        if state.refreshToken.None? {
          renewed := Renew(PasswordGrant(username, password));
        } else {
          var now := Now();
          if state.refreshExpireAt.None? {
            return Err(ExpiryNotComparable);
          }
          if state.refreshExpireAt.value < now {
            renewed := Renew(PasswordGrant(username, password));
          } else {
            renewed := Renew(RefreshGrant(state.refreshToken.value));
          }
        }
        if renewed.Err? {
          return Err(renewed.error);
        }
      }
      r := Ok(state.accessToken);
    }
  }

  /** The OpenID Connect client settings of the admin client. */
  datatype OidcClientConfig = OidcClientConfig(clientId: string, clientSecret: Option<string>, issuer: string)

  /** `KeycloakAdminCredentials` */
  datatype KeycloakAdminCredentials = KeycloakAdminCredentials(realm: string, username: string, password: string)

  /**
   * The admin client's settings, the same in both trees: client
   * `admin-cli`, no secret, and the realm's issuer under the base URL.
   */
  function AdminClientConfig(baseUrl: string, realm: string): (c: OidcClientConfig)
    ensures c.clientId == "admin-cli" && c.clientSecret.None?
    ensures |c.issuer| == |baseUrl| + 8 + |realm|
    ensures c.issuer[..|baseUrl|] == baseUrl && c.issuer[|baseUrl|..|baseUrl| + 8] == "/realms/"
    ensures c.issuer[|baseUrl| + 8..] == realm
  {
    OidcClientConfig("admin-cli", None, baseUrl + "/realms/" + realm)
  }

  /** Distinct realms under one base URL have distinct issuers. */
  lemma IssuerDeterminesRealm(baseUrl: string, realm1: string, realm2: string)
    requires AdminClientConfig(baseUrl, realm1).issuer == AdminClientConfig(baseUrl, realm2).issuer
    ensures realm1 == realm2
  {
    var c1 := AdminClientConfig(baseUrl, realm1);
    var c2 := AdminClientConfig(baseUrl, realm2);
    assert realm1 == c1.issuer[|baseUrl| + 8..] == c2.issuer[|baseUrl| + 8..] == realm2;
  }

  /**
   * `KeycloakAdmin.__init__`: its tokens manager starts empty, with the
   * default threshold, the account of the credentials, and the admin client
   * settings.
   */
  class KeycloakAdmin {
    const baseUrl: string
    const config: OidcClientConfig
    const tokensManager: TokensManager

    constructor (credentials: KeycloakAdminCredentials, baseUrl: string,
                 clock: nat -> int, oidc: (nat, OidcRequest) -> Result<TokenResponse, OidcError>)
      ensures this.baseUrl == baseUrl
      ensures config == AdminClientConfig(baseUrl, credentials.realm)
      ensures fresh(tokensManager)
      ensures tokensManager.username == credentials.username && tokensManager.password == credentials.password
      ensures tokensManager.threshold == DefaultExpirationThreshold
      ensures tokensManager.state == NoTokens && tokensManager.requests == []
    {
      this.baseUrl := baseUrl;
      config := AdminClientConfig(baseUrl, credentials.realm);
      tokensManager := new TokensManager(credentials.username, credentials.password, DefaultExpirationThreshold, clock, oidc);
    }
  }

  /**
   * The legacy `KeycloakAdmin.__init__`: the same settings over the legacy
   * tokens manager; a caller that gives no base URL gets `LegacyDefaultBaseUrl`.
   */
  class LegacyKeycloakAdmin {
    const baseUrl: string
    const config: OidcClientConfig
    const tokensManager: LegacyTokensManager

    constructor (credentials: KeycloakAdminCredentials, baseUrl: Option<string>,
                 clock: nat -> int, oidc: (nat, OidcRequest) -> Result<TokenResponse, OidcError>)
      ensures this.baseUrl == (if baseUrl.Some? then baseUrl.value else LegacyDefaultBaseUrl)
      ensures config == AdminClientConfig(this.baseUrl, credentials.realm)
      ensures fresh(tokensManager)
      ensures tokensManager.username == credentials.username && tokensManager.password == credentials.password
      ensures tokensManager.threshold == DefaultExpirationThreshold
      ensures tokensManager.state == NoTokens && tokensManager.requests == []
    {
      var url := if baseUrl.Some? then baseUrl.value else LegacyDefaultBaseUrl;
      this.baseUrl := url;
      config := AdminClientConfig(url, credentials.realm);
      tokensManager := new LegacyTokensManager(credentials.username, credentials.password, DefaultExpirationThreshold, clock, oidc);
    }
  }
}
