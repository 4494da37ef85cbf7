/**
 * The gate every `/api` request passes before its route: public paths go
 * straight through; any other path needs an `Authorization: Bearer <token>`
 * header, and the token's claims become the request's user.
 *
 * `verifyToken` is handed in as `verify`: `None` for a token it rejects
 * (it reports `null` for every failure of `jwt.verify`, so it never throws),
 * otherwise the `userId` claim the token carries, if any.
 */
module AuthGate {
  import opened Wrappers
  import opened Schema
  import Text

  /** The paths, below `/api`, that need no token. */
  const PublicRoutes: seq<string> :=
    ["/health", "/auth/register", "/auth/login", "/spotify/search", "/spotify/track/", "/spotify/status", "/songs"]

  const BearerPrefix := "Bearer "
  const AccessTokenRequired := "Access token required"
  const InvalidOrExpired := "Invalid or expired token"

  /** What the gate does with a request. */
  datatype Outcome =
    | Pass                         // `next()` with no user attached
    | Attach(userId: Option<Id>)   // `req.user = { id: decoded.userId }`, then `next()`
    | Reject(status: int, error: string)

  /** `publicRoutes.some(route => path === route || path.startsWith(route))`. */
  predicate IsPublicRoute(path: string) {
    exists i :: 0 <= i < |PublicRoutes| && (path == PublicRoutes[i] || Text.StartsWith(path, PublicRoutes[i]))
  }

  /** The equality test adds nothing: a path is public iff it starts with a listed route. */
  lemma PublicIffPrefixed(path: string)
    ensures IsPublicRoute(path) <==> exists i :: 0 <= i < |PublicRoutes| && Text.StartsWith(path, PublicRoutes[i])
  {
    if IsPublicRoute(path) {
      var i :| 0 <= i < |PublicRoutes| && (path == PublicRoutes[i] || Text.StartsWith(path, PublicRoutes[i]));
      assert Text.StartsWith(path, PublicRoutes[i]);
    }
  }

  /** Every path below `/songs`, and every path that merely starts with those letters, is public. */
  lemma SongPathsArePublic(path: string)
    requires Text.StartsWith(path, "/songs")
    ensures IsPublicRoute(path)
  {
    assert PublicRoutes[6] == "/songs";
  }

  /** No playlist path is public: they all differ from every listed route in their second character. */
  lemma PlaylistPathsAreGuarded(path: string)
    requires Text.StartsWith(path, "/playlists")
    ensures !IsPublicRoute(path)
  {
    assert path[1] == 'p';
    forall i | 0 <= i < |PublicRoutes| ensures !(path == PublicRoutes[i] || Text.StartsWith(path, PublicRoutes[i])) {
      assert PublicRoutes[i][1] != 'p';
    }
  }

  /** Adding a track to the library needs a token: `/spotify/` is followed by `a`, not by `s` or `t`. */
  lemma AddTrackIsGuarded(path: string)
    requires Text.StartsWith(path, "/spotify/add-track")
    ensures !IsPublicRoute(path)
  {
    assert path[1] == 's' && path[2] == 'p' && path[9] == 'a';
    forall i | 0 <= i < |PublicRoutes| ensures !(path == PublicRoutes[i] || Text.StartsWith(path, PublicRoutes[i])) {
      if i < 6 {
        assert PublicRoutes[i][1] != 's' || PublicRoutes[i][9] != 'a';
      } else {
        assert PublicRoutes[i][2] != 'p';
      }
    }
  }

  /** The track lookup is public only with its trailing slash. */
  lemma TrackNeedsTrailingSlash()
    ensures !IsPublicRoute("/spotify/track")
    ensures IsPublicRoute("/spotify/track/")
  {
    var p := "/spotify/track";
    forall i | 0 <= i < |PublicRoutes| ensures !(p == PublicRoutes[i] || Text.StartsWith(p, PublicRoutes[i])) {
      if i == 4 {
        assert |PublicRoutes[i]| > |p|;
      } else if i < 6 {
        assert PublicRoutes[i][1] != 's' || PublicRoutes[i][9] != p[9];
      } else {
        assert PublicRoutes[i][2] != p[2];
      }
    }
    assert PublicRoutes[4] == "/spotify/track/";
  }

  /** `!authHeader || !authHeader.startsWith("Bearer ")`, else `authHeader.substring(7)`. */
  function BearerToken(header: Option<string>): (token: Option<string>)
    ensures token.Some? <==> header.Some? && Text.StartsWith(header.value, BearerPrefix)
    ensures token.Some? ==> header.value == BearerPrefix + token.value
  {
    if header.None? || header.value == "" || !Text.StartsWith(header.value, BearerPrefix) then None
    else
      var t := header.value[7..];
      assert header.value == header.value[..7] + t;
      Some(t)
  }

  /** Any token sent after the prefix comes back unchanged. */
  lemma BearerTokenRoundTrip(token: string)
    ensures BearerToken(Some(BearerPrefix + token)) == Some(token)
  {
    assert (BearerPrefix + token)[..7] == BearerPrefix;
  }

  /**
   * The gate as written: `verifyToken` is asynchronous and is called without
   * `await`, so `decoded` is a pending promise: always truthy, with no
   * `userId`. The token is never checked.
   */
  function GateAsWritten(path: string, header: Option<string>): (r: Outcome)
    ensures IsPublicRoute(path) ==> r == Pass
    ensures !IsPublicRoute(path) && BearerToken(header).None? ==> r == Reject(401, AccessTokenRequired)
    ensures !IsPublicRoute(path) && BearerToken(header).Some? ==> r == Attach(None)
  {
    if IsPublicRoute(path) then Pass
    else
      match BearerToken(header)
      case None => Reject(401, AccessTokenRequired)
      case Some(_) => Attach(None)
  }

  /** As written, every bearer token is let through alike, whatever it holds. */
  lemma AsWrittenIgnoresToken(path: string, t1: string, t2: string)
    ensures GateAsWritten(path, Some(BearerPrefix + t1)) == GateAsWritten(path, Some(BearerPrefix + t2))
    ensures GateAsWritten(path, Some(BearerPrefix + t1)) != Reject(401, InvalidOrExpired)
  {
    BearerTokenRoundTrip(t1);
    BearerTokenRoundTrip(t2);
  }

  /**
   * The gate with `verifyToken` awaited: a rejected token is a 401, and a
   * verified one attaches the user its claim names.
   */
  function Gate(path: string, header: Option<string>, verify: string -> Option<Option<Id>>): (r: Outcome)
    ensures IsPublicRoute(path) ==> r == Pass
    ensures !IsPublicRoute(path) && BearerToken(header).None? ==> r == Reject(401, AccessTokenRequired)
    ensures !IsPublicRoute(path) && BearerToken(header).Some? ==>
      r == (match verify(BearerToken(header).value)
            case None => Reject(401, InvalidOrExpired)
            case Some(claim) => Attach(claim))
  {
    if IsPublicRoute(path) then Pass
    else
      match BearerToken(header)
      case None => Reject(401, AccessTokenRequired)
      case Some(token) =>
        match verify(token)
        case None => Reject(401, InvalidOrExpired)
        case Some(claim) => Attach(claim)
  }

  /** A user is attached only for a token the verifier accepts, and it is the user that token names. */
  lemma GateAttachesOnlyVerifiedUsers(path: string, header: Option<string>, verify: string -> Option<Option<Id>>, id: Id)
    requires Gate(path, header, verify) == Attach(Some(id))
    ensures !IsPublicRoute(path)
    ensures exists token :: header == Some(BearerPrefix + token) && verify(token) == Some(Some(id))
  {
    var token := BearerToken(header).value;
    assert header == Some(BearerPrefix + token);
  }

  /** Where the token matters, the corrected gate agrees with the written one exactly on tokens the verifier accepts. */
  lemma GateAgreesOnValidTokens(path: string, token: string, verify: string -> Option<Option<Id>>)
    requires !IsPublicRoute(path)
    ensures Gate(path, Some(BearerPrefix + token), verify) == GateAsWritten(path, Some(BearerPrefix + token))
      <==> verify(token) == Some(None)
  {
    BearerTokenRoundTrip(token);
  }
}
