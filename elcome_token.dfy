/** The token cache for the upstream billing API: one cached bearer token
    and one "refresh in flight" marker, shared by every caller.

    The clock is passed in as `now` (epoch milliseconds). The token request
    itself is outside the model: a refresh is started by `Request` and
    finished by `Settle`, whose `outcome` says what the token endpoint
    answered. */
module ElcomeToken {
  import opened Wrappers

  /** Renew this long before the expiry instant. */
  const SKEW_MS: int := 30000

  /** The token endpoint's JSON answer; `expiresIn` is in seconds. */
  datatype TokenResponse = TokenResponse(
    accessToken: string,
    tokenType: Option<string>,
    expiresIn: int,
    scope: Option<string>)

  datatype CachedToken = CachedToken(
    accessToken: string,
    tokenType: string,
    expiresAtMs: int,
    scope: Option<string>)

  /** What the token request came back with: a successful answer, or a
      non-ok HTTP status and the response text. */
  datatype FetchOutcome = Fetched(response: TokenResponse) | Rejected(status: int, body: string)

  /** The error a failed token request raises. */
  datatype TokenError = TokenRequestFailed(status: int, body: string)

  /** What a caller of `getElcomeToken` is handed at once: the cached token,
      or the refresh (by number) whose outcome it awaits. */
  datatype Wait = Ready(token: CachedToken) | Pending(refresh: nat)

  /** A cached token is used only while it is still 30 seconds from expiry. */
  predicate IsValid(cache: Option<CachedToken>, now: int)
    ensures cache.None? ==> !IsValid(cache, now)
    ensures cache.Some? ==> (IsValid(cache, now) <==> cache.value.expiresAtMs - now > SKEW_MS)
  {
    cache.Some? && now + SKEW_MS < cache.value.expiresAtMs
  }

  /** The boundary is strict: expiring exactly 30 seconds from now is too
      late, one millisecond more is enough; no token at all is never valid. */
  lemma ValidityBoundary(t: CachedToken, now: int)
    ensures t.expiresAtMs == now + 30000 ==> !IsValid(Some(t), now)
    ensures t.expiresAtMs == now + 30001 ==> IsValid(Some(t), now)
    ensures !IsValid(None, now)
  {
  }

  /** The form fields of the token request; `scope` only when configured
      and not empty. */
  function TokenRequestForm(clientId: string, clientSecret: string, scope: Option<string>): (form: seq<(string, string)>)
    ensures 3 <= |form| <= 4
    ensures form[..3] == [("grant_type", "client_credentials"), ("client_id", clientId), ("client_secret", clientSecret)]
    ensures |form| == 4 <==> scope.Some? && scope.value != ""
    ensures |form| == 4 ==> form[3] == ("scope", scope.value)
  {
    var required := [("grant_type", "client_credentials"), ("client_id", clientId), ("client_secret", clientSecret)];
    if scope.Some? && scope.value != "" then required + [("scope", scope.value)] else required
  }

  /** The token built from a successful answer received at `now`. */
  function TokenFromResponse(data: TokenResponse, now: int): (t: CachedToken)
    ensures t.accessToken == data.accessToken && t.scope == data.scope
    ensures data.tokenType.Some? ==> t.tokenType == data.tokenType.value
    ensures data.tokenType.None? ==> t.tokenType == "Bearer"
    ensures t.expiresAtMs - now == data.expiresIn * 1000
  {
    CachedToken(
      data.accessToken,
      if data.tokenType.Some? then data.tokenType.value else "Bearer",
      now + data.expiresIn * 1000,
      data.scope)
  }

  /** A fresh token serves callers for `expires_in` seconds less the margin:
      valid at `later` exactly when `later` is over 30 seconds before its
      expiry. One that lives 30 seconds or less is never served from the
      cache, not even at the moment it arrives. */
  lemma FreshTokenLifetime(data: TokenResponse, now: int, later: int)
    ensures IsValid(Some(TokenFromResponse(data, now)), later) <==> later - now < data.expiresIn * 1000 - SKEW_MS
    ensures data.expiresIn <= 30 && now <= later ==> !IsValid(Some(TokenFromResponse(data, now)), later)
  {
  }

  /** The two process-wide slots, plus the number of token requests issued
      so far (which also numbers the refreshes). */
  class TokenCache {
    var cached: Option<CachedToken>
    var inflight: Option<nat>
    var issued: nat

    /** A refresh in flight is the last one issued. */
    ghost predicate Valid()
      reads this
    {
      inflight.Some? ==> inflight.value + 1 == issued
    }

    /** Both slots start out empty. */
    constructor ()
      ensures Valid()
      ensures cached == None && inflight == None && issued == 0
    {
      cached := None;
      inflight := None;
      issued := 0;
    }

    /** `getElcomeToken` up to its first `await`: a valid cached token is
        returned as it is; otherwise the caller joins the refresh in flight;
        otherwise a token request is issued and marked as in flight. */
    method Request(now: int) returns (w: Wait)
      requires Valid()
      modifies this
      ensures Valid()
      ensures IsValid(old(cached), now) ==>
        w == Ready(old(cached).value) && unchanged(this)
      ensures !IsValid(old(cached), now) && old(inflight).Some? ==>
        w == Pending(old(inflight).value) && unchanged(this)
      ensures !IsValid(old(cached), now) && old(inflight).None? ==>
        w == Pending(old(issued)) && inflight == Some(old(issued)) &&
        issued == old(issued) + 1 && cached == old(cached)
    {
      if IsValid(cached, now) {
        return Ready(cached.value);
      }
      if inflight.Some? {
        return Pending(inflight.value);
      }
      w := Pending(issued);
      inflight := Some(issued);
      issued := issued + 1;
    }

    /** The refresh in flight completes at `now`; every caller waiting on
        it receives `r`. A successful answer replaces the cached token, a
        failure leaves it alone, and either way the in-flight marker is
        cleared so that a later call can start a new refresh. */
    method Settle(now: int, outcome: FetchOutcome) returns (refresh: nat, r: Result<CachedToken, TokenError>)
      requires Valid() && inflight.Some?
      modifies this
      ensures Valid()
      ensures refresh == old(inflight).value && refresh + 1 == issued
      ensures inflight == None && issued == old(issued)
      ensures outcome.Fetched? ==>
        r == Ok(TokenFromResponse(outcome.response, now)) && cached == Some(r.value)
      ensures outcome.Rejected? ==>
        r == Err(TokenRequestFailed(outcome.status, outcome.body)) && cached == old(cached)
    {
      refresh := inflight.value;
      match outcome {
        case Fetched(data) =>
          var token := TokenFromResponse(data, now);
          cached := Some(token);
          r := Ok(token);
        case Rejected(status, body) =>
          r := Err(TokenRequestFailed(status, body));
      }
      inflight := None;
    }
  }

  /** Two callers arrive with nothing cached: both wait on the same refresh
      and one token request is issued. Once it succeeds, a third caller
      before the margin is reached gets the new token from the cache. */
  method ConcurrentCallersShareOneRefresh(now: int, later: int, data: TokenResponse)
    returns (first: Wait, second: Wait, settled: nat, r: Result<CachedToken, TokenError>, third: Wait, requests: nat)
    requires now <= later && later + SKEW_MS < now + data.expiresIn * 1000
    ensures first.Pending? && second == first && settled == first.refresh
    ensures r == Ok(TokenFromResponse(data, now))
    ensures third == Ready(r.value)
    ensures requests == 1
  {
    var cache := new TokenCache();
    first := cache.Request(now);
    second := cache.Request(now);
    settled, r := cache.Settle(now, Fetched(data));
    third := cache.Request(later);
    requests := cache.issued;
  }

  /** A failed refresh reports its status and body, caches nothing, and the
      next caller starts a second token request instead of waiting forever. */
  method FailedRefreshAllowsRetry(now: int, status: int, body: string)
    returns (r: Result<CachedToken, TokenError>, retry: Wait, requests: nat)
    ensures r == Err(TokenRequestFailed(status, body))
    ensures retry == Pending(1)
    ensures requests == 2
  {
    var cache := new TokenCache();
    var first := cache.Request(now);
    var refresh;
    refresh, r := cache.Settle(now, Rejected(status, body));
    retry := cache.Request(now);
    requests := cache.issued;
  }
}
