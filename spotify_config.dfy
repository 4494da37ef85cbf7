/**
 * The Spotify client-credentials cache: the client id and secret read once
 * from the environment, and the two mutable fields `accessToken` and
 * `tokenExpiresAt` that `getAccessToken` refreshes. Time is an explicit
 * millisecond clock (`Date.now()`), and the outcome of the token exchange
 * with the accounts service is handed in, so that what the cache does with
 * each outcome is what is modelled.
 */
module SpotifyConfig {
  import opened Wrappers
  import Text

  /** Tokens are treated as expired this many seconds before Spotify says they are. */
  const ExpiryBufferSeconds: int := 300

  const NotConfigured := "Spotify client credentials not configured"
  const AuthenticationFailed := "Failed to authenticate with Spotify"
  const RequestFailedPrefix := "Spotify API request failed: "
  const ApiBase := "https://api.spotify.com/v1"

  /** The outcome of the POST to the accounts service. */
  datatype TokenExchange =
    | Granted(accessToken: string, expiresIn: int, receivedAt: int)  // `response.ok`, body parsed, clock read after it
    | Refused(status: int, statusText: string)                        // `!response.ok`
    | Unreachable                                                     // `fetch` or `json()` threw

  /** An API response: `ok` is a status in 200–299. */
  datatype Response<T> = Response(status: int, statusText: string, body: T)

  predicate IsOk<T>(r: Response<T>) {
    200 <= r.status <= 299
  }

  /** What `makeSpotifyRequest` sends: the URL and the `Authorization` header. */
  datatype ApiRequest = ApiRequest(url: string, authorization: string)

  /** The object `getConfigStatus` returns, with `isTokenValid` reduced to its truthiness. */
  datatype ConfigStatus = ConfigStatus(
    hasClientId: bool, hasClientSecret: bool, hasAccessToken: bool, tokenExpiresAt: int, isTokenValid: bool)

  /** `a || b || ''` over environment variables: the first non-empty one, else empty. */
  function FirstSet(a: Option<string>, b: Option<string>): (r: string)
    ensures a.Some? && a.value != "" ==> r == a.value
    ensures !(a.Some? && a.value != "") && b.Some? && b.value != "" ==> r == b.value
    ensures r == "" <==> (a.None? || a.value == "") && (b.None? || b.value == "")
  {
    if a.Some? && a.value != "" then a.value
    else if b.Some? && b.value != "" then b.value
    else ""
  }

  /** A cached token is served iff it is truthy (present and not empty) and the clock is strictly before the expiry. */
  predicate CacheHit(token: Option<string>, expiresAt: int, now: int) {
    token.Some? && token.value != "" && now < expiresAt
  }

  /** `now + (expires_in - 300) * 1000`: the expiry, in milliseconds, with the five-minute buffer. */
  function ExpiryOf(receivedAt: int, expiresIn: int): (t: int)
    ensures t + ExpiryBufferSeconds * 1000 == receivedAt + expiresIn * 1000
  {
    receivedAt + (expiresIn - ExpiryBufferSeconds) * 1000
  }

  /**
   * A token granted for more than the buffer is served from the cache from
   * the moment it is received until five minutes before Spotify expires it,
   * and not after; one granted for the buffer or less is never served.
   */
  lemma GrantedTokenLifetime(token: string, receivedAt: int, expiresIn: int, now: int)
    requires token != "" && now >= receivedAt
    ensures CacheHit(Some(token), ExpiryOf(receivedAt, expiresIn), now) <==>
      now - receivedAt < (expiresIn - ExpiryBufferSeconds) * 1000
    ensures expiresIn <= ExpiryBufferSeconds ==> !CacheHit(Some(token), ExpiryOf(receivedAt, expiresIn), now)
  {
  }

  /** The error `makeSpotifyRequest` raises for a response that is not ok. */
  function RequestFailed(status: int, statusText: string): (m: string)
    ensures Text.StartsWith(m, RequestFailedPrefix)
    ensures Text.Contains(m, Text.IntToString(status))
  {
    var digits := Text.IntToString(status);
    var head := RequestFailedPrefix + digits;
    assert Text.Contains(head + (" " + statusText), digits) by {
      Text.StartsWithContains(digits, digits);
      Text.ContainsInConcat(RequestFailedPrefix, digits, digits);
      Text.ContainsInConcat(head, " " + statusText, digits);
    }
    assert Text.StartsWith(head + (" " + statusText), RequestFailedPrefix) by {
      assert (head + (" " + statusText))[..|RequestFailedPrefix|] == head[..|RequestFailedPrefix|];
    }
    head + (" " + statusText)
  }

  class Config {
    const clientId: string
    const clientSecret: string
    var accessToken: Option<string>
    var tokenExpiresAt: int

    /** Reads the credentials from `SPOTIFY_CLIENT_ID` (else `VITE_SPOTIFY_CLIENT_ID`) and `SPOTIFY_CLIENT_SECRET`; nothing is cached. */
    constructor (envClientId: Option<string>, envViteClientId: Option<string>, envClientSecret: Option<string>)
      ensures clientId == FirstSet(envClientId, envViteClientId)
      ensures clientSecret == FirstSet(envClientSecret, None)
      ensures accessToken == None && tokenExpiresAt == 0
    {
      clientId := FirstSet(envClientId, envViteClientId);
      clientSecret := FirstSet(envClientSecret, None);
      accessToken := None;
      tokenExpiresAt := 0;
    }

    /** `isConfigured`: both credentials are non-empty. */
    predicate IsConfigured()
    {
      clientId != "" && clientSecret != ""
    }

    /** `getConfigStatus`: `isTokenValid` is the cache-hit test at `now`. */
    function GetConfigStatus(now: int): (s: ConfigStatus)
      reads this
      ensures s.isTokenValid <==> CacheHit(accessToken, tokenExpiresAt, now)
      ensures s.hasClientId && s.hasClientSecret <==> IsConfigured()
      ensures s.hasAccessToken <==> accessToken.Some? && accessToken.value != ""
      ensures s.tokenExpiresAt == tokenExpiresAt
    {
      ConfigStatus(clientId != "", clientSecret != "", accessToken.Some? && accessToken.value != "",
                   tokenExpiresAt, CacheHit(accessToken, tokenExpiresAt, now))
    }

    /**
     * What a token request leaves in the cache: the new token and its expiry
     * when the credentials are set, the cached token had run out and the
     * accounts service granted one; otherwise the cache as it was.
     */
    twostate predicate Refreshed(now: int, exchange: TokenExchange)
      reads this
    {
      if IsConfigured() && !CacheHit(old(accessToken), old(tokenExpiresAt), now) && exchange.Granted? then
        accessToken == Some(exchange.accessToken) && tokenExpiresAt == ExpiryOf(exchange.receivedAt, exchange.expiresIn)
      else
        accessToken == old(accessToken) && tokenExpiresAt == old(tokenExpiresAt)
    }

    /**
     * `getAccessToken` at time `now`. `exchanged` tells whether the accounts
     * service was asked, in which case `exchange` is what it answered.
     */
    method GetAccessToken(now: int, exchange: TokenExchange) returns (r: Result<string>, exchanged: bool)
      modifies this
      ensures CacheHit(old(accessToken), old(tokenExpiresAt), now) ==>
        r == Ok(old(accessToken).value) && !exchanged
      ensures !CacheHit(old(accessToken), old(tokenExpiresAt), now) && !IsConfigured() ==>
        r == Err(NotConfigured) && !exchanged
      ensures !CacheHit(old(accessToken), old(tokenExpiresAt), now) && IsConfigured() ==>
        exchanged && (exchange.Granted? ==> r == Ok(exchange.accessToken)) && (!exchange.Granted? ==> r == Err(AuthenticationFailed))
      ensures exchanged && exchange.Granted? ==>
        accessToken == Some(exchange.accessToken) && tokenExpiresAt == ExpiryOf(exchange.receivedAt, exchange.expiresIn)
      ensures !(exchanged && exchange.Granted?) ==> accessToken == old(accessToken) && tokenExpiresAt == old(tokenExpiresAt)
      ensures r.Err? ==> !exchanged || !exchange.Granted?
      ensures Refreshed(now, exchange)
    {
      if accessToken.Some? && accessToken.value != "" && now < tokenExpiresAt {
        return Ok(accessToken.value), false;
      }
      if clientId == "" || clientSecret == "" {
        return Err(NotConfigured), false;
      }
      exchanged := true;
      match exchange {
        case Granted(token, expiresIn, receivedAt) =>
          accessToken := Some(token);
          tokenExpiresAt := receivedAt + (expiresIn - ExpiryBufferSeconds) * 1000;
          r := Ok(token);
        case Refused(_, _) =>
          r := Err(AuthenticationFailed);
        case Unreachable =>
          r := Err(AuthenticationFailed);
      }
    }

    /**
     * `makeSpotifyRequest(endpoint)`: get a token, send the request with it
     * as a bearer token, and fail with the status when the answer is not ok.
     */
    method MakeSpotifyRequest<T>(endpoint: string, now: int, exchange: TokenExchange, response: Response<T>)
      returns (r: Result<Response<T>>, sent: Option<ApiRequest>)
      modifies this
      ensures sent.None? <==> (!CacheHit(old(accessToken), old(tokenExpiresAt), now) &&
                               (!IsConfigured() || !exchange.Granted?))
      ensures sent.None? ==> r.Err? && (r.message == NotConfigured || r.message == AuthenticationFailed)
      ensures sent.Some? ==> sent.value.url == ApiBase + endpoint
      ensures sent.Some? ==>
        sent.value.authorization == "Bearer " +
          (if CacheHit(old(accessToken), old(tokenExpiresAt), now) then old(accessToken).value else exchange.accessToken)
      ensures sent.Some? && IsOk(response) ==> r == Ok(response)
      ensures sent.Some? && !IsOk(response) ==> r == Err(RequestFailed(response.status, response.statusText))
      ensures sent.Some? && exchange.Granted? && !CacheHit(old(accessToken), old(tokenExpiresAt), now) ==>
        accessToken == Some(exchange.accessToken) && tokenExpiresAt == ExpiryOf(exchange.receivedAt, exchange.expiresIn)
      ensures !(sent.Some? && exchange.Granted? && !CacheHit(old(accessToken), old(tokenExpiresAt), now)) ==>
        accessToken == old(accessToken) && tokenExpiresAt == old(tokenExpiresAt)
      ensures Refreshed(now, exchange)
    {
      var token, _ := GetAccessToken(now, exchange);
      if token.Err? {
        return Err(token.message), None;
      }
      sent := Some(ApiRequest(ApiBase + endpoint, "Bearer " + token.value));
      if 200 <= response.status <= 299 {
        r := Ok(response);
      } else {
        r := Err(RequestFailed(response.status, response.statusText));
      }
    }
  }
}
