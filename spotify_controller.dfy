/**
 * The handlers under `/api/spotify`: they read the query, call the Spotify
 * service (and, to import a track, the song service), and choose a status
 * from what came back, failures included.
 */
module SpotifyController {
  import opened Wrappers
  import opened Schema
  import Text
  import Paging
  import opened Http
  import opened SpotifyConfig
  import opened SpotifyService
  import SongModel
  import SongService
  import Store

  const QueryRequired := "Search query is required"
  const SpotifyUnavailable := "Spotify service unavailable. Please try again later."
  const SearchFailed := "Search failed. Please try again."
  const TrackIdRequired := "Track ID is required"
  const TrackNotFound := "Track not found on Spotify"
  const TrackDetailsFailed := "Failed to fetch track details"
  const AuthenticationRequired := "Authentication required"
  const SpotifyIdRequired := "Spotify track ID is required"
  const SongAlreadyExists := "Song already exists in database"
  const SongAdded := "Song added to database successfully"
  const AddFailed := "Failed to add song to database"
  const TrackIdsRequired := "Track IDs are required"
  const TracksFailed := "Failed to fetch tracks"
  const FeaturedFailed := "Failed to fetch featured playlists"

  /** The page defaults of `searchTracks`. */
  const DefaultPage := 1
  const DefaultLimit := 20

  datatype Pagination = Pagination(page: int, limit: int, total: nat, totalPages: int, offset: int)
  datatype SearchPage = SearchPage(items: seq<Track>, pagination: Pagination)

  // ----- searchTracks ---------------------------------------------------------

  /** How `searchTracks` answers what the service gave back for page `page` of `limit` results. */
  function SearchReply(page: int, limit: int, outcome: Result<SearchResult>): (r: Reply<SearchPage>)
    requires limit != 0
    ensures r.Success? <==> outcome.Ok?
    ensures r.Success? ==> r.status == 200 && r.data.items == outcome.value.items && r.message.None?
    ensures r.Success? ==> r.data.pagination.page == page && r.data.pagination.limit == limit
    ensures r.Success? ==> r.data.pagination.total == outcome.value.total && r.data.pagination.offset == outcome.value.offset
    ensures r.Success? && limit > 0 ==>
      (r.data.pagination.totalPages - 1) * limit < r.data.pagination.total <= r.data.pagination.totalPages * limit
    ensures r.Failure? ==>
      r == (if Text.Contains(outcome.message, Spotify) then Failure(503, SpotifyUnavailable) else Failure(500, SearchFailed))
  {
    match outcome
    case Ok(found) =>
      Success(200, SearchPage(found.items, Pagination(page, limit, found.total, Paging.CeilDiv(found.total, limit), found.offset)), None)
    case Err(message) =>
      if Text.Contains(message, Spotify) then Failure(503, SpotifyUnavailable) else Failure(500, SearchFailed)
  }

  /**
   * Every failure the search service can report names Spotify, so a failed
   * search is always answered 503 and never 500.
   */
  lemma SearchFailuresAreUnavailable(page: int, limit: int)
    requires limit != 0
    ensures SearchReply(page, limit, Err(FailureMessage(SearchTracks))) == Failure(503, SpotifyUnavailable)
    ensures SearchReply(page, limit, Err(NotConfiguredService)) == Failure(503, SpotifyUnavailable)
  {
    ServiceErrorsMentionSpotify(SearchTracks);
  }

  /**
   * `GET /api/spotify/search?q=&page=&limit=`: a blank query is refused;
   * otherwise page and limit default to 1 and 20 when missing, not numbers
   * or 0, `(page - 1) * limit` results are skipped, and the service's
   * answer decides the reply.
   */
  method SearchTracksHandler(cfg: Config, q: Option<string>, page: Option<string>, limit: Option<string>, now: int,
                             exchange: TokenExchange, response: Response<SearchResult>, encode: string -> string)
    returns (reply: Reply<SearchPage>, sent: Option<ApiRequest>)
    modifies cfg
    ensures Blank(q) ==> reply == Failure(400, QueryRequired) && sent.None?
    ensures Blank(q) ==> cfg.accessToken == old(cfg.accessToken) && cfg.tokenExpiresAt == old(cfg.tokenExpiresAt)
    ensures !Blank(q) ==>
      var p := Paging.OrDefault(QueryInt(page), DefaultPage);
      var l := Paging.OrDefault(QueryInt(limit), DefaultLimit);
      && (sent.Some? <==> cfg.IsConfigured() && (CacheHit(old(cfg.accessToken), old(cfg.tokenExpiresAt), now) || exchange.Granted?))
      && (sent.Some? ==> sent.value.url == ApiBase + SearchEndpoint("track", q.value, l, Paging.Offset(p, l), encode))
      && (reply.Success? <==> sent.Some? && IsOk(response))
      && (reply.Success? ==> reply == SearchReply(p, l, Ok(response.body)))
      && (reply.Failure? ==> reply == Failure(503, SpotifyUnavailable))
  {
    var p := Paging.OrDefault(QueryInt(page), DefaultPage);
    var l := Paging.OrDefault(QueryInt(limit), DefaultLimit);
    if q.None? || Text.Trim(q.value) == "" {
      return Failure(400, QueryRequired), None;
    }
    var outcome;
    outcome, sent := Fetch(cfg, SearchTracks, SearchEndpoint("track", q.value, l, Paging.Offset(p, l), encode), now, exchange, response);
    ServiceErrorsMentionSpotify(SearchTracks);
    reply := SearchReply(p, l, outcome);
  }

  // ----- getTrackDetails --------------------------------------------------------

  /** How `getTrackDetails` answers: a failure that mentions 404 is a missing track, any other a 500. */
  function TrackDetailsReply(trackId: string, outcome: Result<Track>): (r: Reply<Track>)
    ensures trackId == "" ==> r == Failure(400, TrackIdRequired)
    ensures trackId != "" && outcome.Ok? ==> r == Success(200, outcome.value, None)
    ensures trackId != "" && outcome.Err? ==>
      r == (if Text.Contains(outcome.message, "404") then Failure(404, TrackNotFound) else Failure(500, TrackDetailsFailed))
  {
    if trackId == "" then Failure(400, TrackIdRequired)
    else match outcome
      case Ok(track) => Success(200, track, None)
      case Err(message) =>
        if Text.Contains(message, "404") then Failure(404, TrackNotFound) else Failure(500, TrackDetailsFailed)
  }

  /**
   * `GET /api/spotify/track/:id` as written: the service has already
   * replaced every failure with a fixed message, so a track the catalog
   * does not have is answered 500, never 404.
   */
  method TrackDetailsHandlerAsWritten(cfg: Config, trackId: string, now: int, exchange: TokenExchange, response: Response<Track>)
    returns (reply: Reply<Track>)
    modifies cfg
    ensures trackId != "" && response.status == 404 ==> reply == Failure(500, TrackDetailsFailed)
    ensures reply.status != 404
  {
    if trackId == "" {
      return Failure(400, TrackIdRequired);
    }
    var outcome := FetchTrack(cfg, trackId, now, exchange, response);
    TrackFailureHidesStatus();
    NotConfiguredHidesStatus();
    reply := TrackDetailsReply(trackId, outcome);
  }

  /**
   * `GET /api/spotify/track/:id` over the cause-keeping `getTrack`: a track
   * the catalog answers 404 for is reported as not found.
   */
  method TrackDetailsHandler(cfg: Config, trackId: string, now: int, exchange: TokenExchange, response: Response<Track>)
    returns (reply: Reply<Track>)
    modifies cfg
    ensures trackId == "" ==> reply == Failure(400, TrackIdRequired)
    ensures (trackId != "" && cfg.IsConfigured() &&
             (CacheHit(old(cfg.accessToken), old(cfg.tokenExpiresAt), now) || exchange.Granted?)) ==>
      && (IsOk(response) ==> reply == Success(200, response.body, None))
      && (response.status == 404 ==> reply == Failure(404, TrackNotFound))
    ensures trackId != "" && !cfg.IsConfigured() ==> reply == Failure(500, TrackDetailsFailed)
  {
    if trackId == "" {
      return Failure(400, TrackIdRequired);
    }
    var outcome := FetchTrackWithCause(cfg, trackId, now, exchange, response);
    NotConfiguredHidesStatus();
    reply := TrackDetailsReply(trackId, outcome);
  }

  // ----- addTrackToDatabase -----------------------------------------------------

  /**
   * The song record `addTrackToDatabase` builds from a catalog track: the
   * same as the service's conversion, except that an empty first image url
   * or an empty preview is kept rather than dropped.
   */
  function HandlerSongData(t: Track): (s: InsertSong)
    ensures s.spotifyId == t.id && s.name == t.name && s.album == t.album.name && s.duration == t.durationMs
    ensures s.artist == Text.Join(ArtistNames(t), ", ")
    ensures s.imageUrl == FirstImageUrl(t) && s.previewUrl == t.previewUrl
  {
    InsertSong(t.id, t.name, Text.Join(ArtistNames(t), ", "), t.album.name, t.durationMs, FirstImageUrl(t), t.previewUrl)
  }

  /** The two conversions agree exactly when the track has no empty image url and no empty preview. */
  lemma HandlerSongDataIsConversion(t: Track)
    ensures HandlerSongData(t) == ConvertTrack(t) <==>
      (|t.album.images| == 0 || t.album.images[0].url != "") && t.previewUrl != Some("")
  {
  }

  /** The statuses `addTrackToDatabase` answers a failure with. */
  function AddFailure(message: string): (r: Reply<Song>)
    ensures r.Failure?
    ensures Text.Contains(message, "404") ==> r == Failure(404, TrackNotFound)
    ensures !Text.Contains(message, "404") && Text.Contains(message, "duplicate") ==> r == Failure(409, SongAlreadyExists)
    ensures !Text.Contains(message, "404") && !Text.Contains(message, "duplicate") ==> r == Failure(500, AddFailed)
  {
    if Text.Contains(message, "404") then Failure(404, TrackNotFound)
    else if Text.Contains(message, "duplicate") then Failure(409, SongAlreadyExists)
    else Failure(500, AddFailed)
  }

  /**
   * `POST /api/spotify/add-track`: only for a signed-in user and a truthy
   * `spotifyId`; a song already stored under that id is returned as it is;
   * otherwise the track is fetched, converted and created.
   */
  method AddTrackToDatabase(db: Store.Db, cfg: Config, signedIn: bool, spotifyId: Option<string>, now: nat,
                            exchange: TokenExchange, response: Response<Track>)
    returns (reply: Reply<Song>)
    requires db.Valid()
    modifies db, cfg
    ensures db.Valid()
    ensures db.users == old(db.users) && db.playlists == old(db.playlists)
    ensures forall k :: k in old(db.songs) ==> k in db.songs && db.songs[k] == old(db.songs[k])
    ensures !signedIn ==> reply == Failure(401, AuthenticationRequired) && db.songs == old(db.songs)
    ensures signedIn && Falsy(spotifyId) ==> reply == Failure(400, SpotifyIdRequired) && db.songs == old(db.songs)
    ensures signedIn && !Falsy(spotifyId) && old(SongService.GetSongBySpotifyId(db, spotifyId.value)).Some? ==>
      && reply == Success(200, old(SongService.GetSongBySpotifyId(db, spotifyId.value)).value, Some(SongAlreadyExists))
      && db.songs == old(db.songs)
    ensures signedIn && !Falsy(spotifyId) && old(SongService.GetSongBySpotifyId(db, spotifyId.value)).None? ==>
      && ((cfg.IsConfigured() && (CacheHit(old(cfg.accessToken), old(cfg.tokenExpiresAt), now) || exchange.Granted?) &&
           response.status == 404) ==> reply == Failure(404, TrackNotFound) && db.songs == old(db.songs))
      && (reply.Success? ==>
            && IsOk(response) && reply.status == 201 && reply.message == Some(SongAdded)
            && reply.data.spotifyId == Text.Trim(response.body.id)
            && SongService.GetSongBySpotifyId(db, response.body.id) == Some(reply.data)
            && var found := old(SongService.GetSongBySpotifyId(db, response.body.id));
            if found.Some? then reply.data == found.value && db.songs == old(db.songs)
            else
              && SongModel.Validate(HandlerSongData(response.body)).Ok?
              && reply.data == SongModel.MakeSong(old(db.nextId), SongModel.Validate(HandlerSongData(response.body)).value, now)
              && db.songs == old(db.songs)[reply.data.id := reply.data])
      && ((IsOk(response) && cfg.IsConfigured() && (CacheHit(old(cfg.accessToken), old(cfg.tokenExpiresAt), now) || exchange.Granted?) &&
           SongModel.Validate(HandlerSongData(response.body)).Ok?) ==> reply.Success?)
      && ((IsOk(response) && cfg.IsConfigured() && (CacheHit(old(cfg.accessToken), old(cfg.tokenExpiresAt), now) || exchange.Granted?) &&
           old(SongService.GetSongBySpotifyId(db, response.body.id)).None? &&
           SongModel.Validate(HandlerSongData(response.body)).Err?) ==>
            reply == AddFailure(SongModel.Validate(HandlerSongData(response.body)).message) && db.songs == old(db.songs))
    ensures signedIn && !Falsy(spotifyId) && old(SongService.GetSongBySpotifyId(db, spotifyId.value)).None? ==>
      cfg.Refreshed(now, exchange)
    ensures !(signedIn && !Falsy(spotifyId) && old(SongService.GetSongBySpotifyId(db, spotifyId.value)).None?) ==>
      cfg.accessToken == old(cfg.accessToken) && cfg.tokenExpiresAt == old(cfg.tokenExpiresAt)
    ensures reply.Failure? ==> reply.status in {400, 401, 404, 409, 500}
  {
    if !signedIn {
      return Failure(401, AuthenticationRequired);
    }
    if spotifyId.None? || spotifyId.value == "" {
      return Failure(400, SpotifyIdRequired);
    }
    Store.ValidIdsIssued(db);
    var existing := SongService.GetSongBySpotifyId(db, spotifyId.value);
    if existing.Some? {
      return Success(200, existing.value, Some(SongAlreadyExists));
    }
    var track := FetchTrackWithCause(cfg, spotifyId.value, now, exchange, response);
    if track.Err? {
      return AddFailure(track.message);
    }
    var created := SongService.CreateSong(db, HandlerSongData(track.value), now);
    if created.Err? {
      return AddFailure(created.message);
    }
    reply := Success(201, created.value, Some(SongAdded));
  }

  /**
   * `POST /api/spotify/add-track` as written, over `getTrack` as written:
   * every failure to fetch the track, a catalog 404 included, arrives with a
   * fixed message that says neither "404" nor "duplicate", so it is a 500.
   */
  method AddTrackToDatabaseAsWritten(db: Store.Db, cfg: Config, signedIn: bool, spotifyId: Option<string>, now: nat,
                                     exchange: TokenExchange, response: Response<Track>)
    returns (reply: Reply<Song>)
    requires db.Valid()
    modifies db, cfg
    ensures db.Valid()
    ensures db.users == old(db.users) && db.playlists == old(db.playlists)
    ensures forall k :: k in old(db.songs) ==> k in db.songs && db.songs[k] == old(db.songs[k])
    ensures !signedIn ==> reply == Failure(401, AuthenticationRequired) && db.songs == old(db.songs)
    ensures signedIn && Falsy(spotifyId) ==> reply == Failure(400, SpotifyIdRequired) && db.songs == old(db.songs)
    ensures signedIn && !Falsy(spotifyId) && old(SongService.GetSongBySpotifyId(db, spotifyId.value)).Some? ==>
      && reply == Success(200, old(SongService.GetSongBySpotifyId(db, spotifyId.value)).value, Some(SongAlreadyExists))
      && db.songs == old(db.songs)
    ensures signedIn && !Falsy(spotifyId) && old(SongService.GetSongBySpotifyId(db, spotifyId.value)).None? ==>
      && (!(cfg.IsConfigured() && (CacheHit(old(cfg.accessToken), old(cfg.tokenExpiresAt), now) || exchange.Granted?)
            && IsOk(response))
          ==> reply == Failure(500, AddFailed) && db.songs == old(db.songs))
      && (reply.Success? ==>
            && IsOk(response) && reply.status == 201 && reply.message == Some(SongAdded)
            && reply.data.spotifyId == Text.Trim(response.body.id)
            && SongService.GetSongBySpotifyId(db, response.body.id) == Some(reply.data)
            && var found := old(SongService.GetSongBySpotifyId(db, response.body.id));
            if found.Some? then reply.data == found.value && db.songs == old(db.songs)
            else
              && SongModel.Validate(HandlerSongData(response.body)).Ok?
              && reply.data == SongModel.MakeSong(old(db.nextId), SongModel.Validate(HandlerSongData(response.body)).value, now)
              && db.songs == old(db.songs)[reply.data.id := reply.data])
      && ((IsOk(response) && cfg.IsConfigured() && (CacheHit(old(cfg.accessToken), old(cfg.tokenExpiresAt), now) || exchange.Granted?) &&
           SongModel.Validate(HandlerSongData(response.body)).Ok?) ==> reply.Success?)
      && ((IsOk(response) && cfg.IsConfigured() && (CacheHit(old(cfg.accessToken), old(cfg.tokenExpiresAt), now) || exchange.Granted?) &&
           old(SongService.GetSongBySpotifyId(db, response.body.id)).None? &&
           SongModel.Validate(HandlerSongData(response.body)).Err?) ==>
            reply == AddFailure(SongModel.Validate(HandlerSongData(response.body)).message) && db.songs == old(db.songs))
    ensures signedIn && !Falsy(spotifyId) && old(SongService.GetSongBySpotifyId(db, spotifyId.value)).None? ==>
      cfg.Refreshed(now, exchange)
    ensures !(signedIn && !Falsy(spotifyId) && old(SongService.GetSongBySpotifyId(db, spotifyId.value)).None?) ==>
      cfg.accessToken == old(cfg.accessToken) && cfg.tokenExpiresAt == old(cfg.tokenExpiresAt)
  {
    if !signedIn {
      return Failure(401, AuthenticationRequired);
    }
    if spotifyId.None? || spotifyId.value == "" {
      return Failure(400, SpotifyIdRequired);
    }
    Store.ValidIdsIssued(db);
    var existing := SongService.GetSongBySpotifyId(db, spotifyId.value);
    if existing.Some? {
      return Success(200, existing.value, Some(SongAlreadyExists));
    }
    var track := FetchTrack(cfg, spotifyId.value, now, exchange, response);
    if track.Err? {
      if cfg.IsConfigured() {
        TrackFailureHidesStatus();
        TrackFailureIsNoConflict();
      } else {
        NotConfiguredHidesStatus();
        NotConfiguredIsNoConflict();
      }
      return AddFailure(track.message);
    }
    var created := SongService.CreateSong(db, HandlerSongData(track.value), now);
    if created.Err? {
      return AddFailure(created.message);
    }
    reply := Success(201, created.value, Some(SongAdded));
  }

  /** As written, a track the catalog does not have is answered 500, never 404. */
  lemma CatalogMissIsServerError(message: string)
    requires message == FailureMessage(GetTrack) || message == NotConfiguredService
    ensures AddFailure(message) == Failure(500, AddFailed)
  {
    TrackFailureHidesStatus();
    TrackFailureIsNoConflict();
    NotConfiguredHidesStatus();
    NotConfiguredIsNoConflict();
  }

  /** -404 prints as "-404", which contains "404". */
  lemma PrintedMinus404Says404()
    ensures Text.Contains(Text.IntToString(-404), "404")
  {
    assert Text.NatToString(4) == "4";
    assert Text.NatToString(40) == "40";
    assert Text.NatToString(404) == "404";
    assert Text.IntToString(-404) == "-404";
    assert "-404"[1..4] == "404";
    assert Text.OccursAt(Text.IntToString(-404), "404", 1);
  }

  /**
   * The `includes('404')` test also reads the creation error: Mongoose's
   * `min` message prints the offending duration, so a track whose
   * `duration_ms` is -404 is answered 404 "Track not found" although the
   * catalog returned it.
   */
  lemma NegativeDurationReadsAsMissing(t: Track)
    requires t.durationMs == -404
    ensures AddFailure(SongModel.Validate(HandlerSongData(t)).message) == Failure(404, TrackNotFound)
  {
    var m := SongModel.Validate(HandlerSongData(t)).message;
    SongModel.NegativeDurationShown(HandlerSongData(t));
    PrintedMinus404Says404();
    Text.ContainsTransitive(m, Text.IntToString(-404), "404");
  }

  // ----- getMultipleTracks, getStatus, getFeaturedPlaylists -----------------------

  /** The ids `getMultipleTracks` asks for: the comma-separated pieces, trimmed, at most fifty. */
  function RequestedIds(ids: string): (r: seq<string>)
    ensures |r| <= MaxTracksPerRequest
    ensures forall i :: 0 <= i < |r| ==> ',' !in r[i] && Text.Trimmed(r[i])
  {
    var pieces := Text.Split(ids, ',');
    var trimmed := seq(|pieces|, i requires 0 <= i < |pieces| => Text.Trim(pieces[i]));
    forall i | 0 <= i < |pieces| ensures ',' !in trimmed[i] {
      Text.TrimIsInfix(pieces[i]);
    }
    Text.Take(trimmed, MaxTracksPerRequest)
  }

  /** The ids the request carries read back as exactly the requested ones. */
  lemma RequestedIdsSent(ids: string)
    requires ids != ""
    ensures Text.Split(IdsParam(RequestedIds(ids), MaxTracksPerRequest), ',') == RequestedIds(ids)
  {
    var r := RequestedIds(ids);
    assert |Text.Split(ids, ',')| >= 1;
    IdsParamReadsBack(r, MaxTracksPerRequest);
  }

  /** `GET /api/spotify/tracks?ids=`: missing or empty ids are refused; any service failure is a 500. */
  method MultipleTracksHandler<T>(cfg: Config, ids: Option<string>, now: int, exchange: TokenExchange, response: Response<T>)
    returns (reply: Reply<T>, sent: Option<ApiRequest>)
    modifies cfg
    ensures Falsy(ids) ==> reply == Failure(400, TrackIdsRequired) && sent.None?
    ensures !Falsy(ids) ==>
      && (sent.Some? ==> sent.value.url == ApiBase + TracksEndpoint(RequestedIds(ids.value)))
      && (reply.Success? <==> sent.Some? && IsOk(response))
      && (reply.Success? ==> reply == Success(200, response.body, None))
      && (reply.Failure? ==> reply == Failure(500, TracksFailed))
  {
    if ids.None? || ids.value == "" {
      return Failure(400, TrackIdsRequired), None;
    }
    var outcome;
    outcome, sent := Fetch(cfg, SpotifyService.GetMultipleTracks, TracksEndpoint(RequestedIds(ids.value)), now, exchange, response);
    reply := if outcome.Ok? then Success(200, outcome.value, None) else Failure(500, TracksFailed);
  }

  /** `GET /api/spotify/status`: the service's configuration status, always 200. */
  method StatusHandler(cfg: Config, now: int, exchange: TokenExchange) returns (reply: Reply<ConfigurationStatus>)
    modifies cfg
    ensures reply.Success? && reply.status == 200
    ensures reply.data.status == old(cfg.GetConfigStatus(now))
    ensures reply.data.apiAccessible <==>
      cfg.IsConfigured() && (CacheHit(old(cfg.accessToken), old(cfg.tokenExpiresAt), now) || exchange.Granted?)
  {
    var status := GetConfigurationStatus(cfg, now, exchange);
    reply := Success(200, status, None);
  }

  /** `GET /api/spotify/featured?limit=`: the limit defaults to 20; any service failure is a 500. */
  method FeaturedPlaylistsHandler<T>(cfg: Config, limit: Option<string>, now: int, exchange: TokenExchange, response: Response<T>)
    returns (reply: Reply<T>, sent: Option<ApiRequest>)
    modifies cfg
    ensures sent.Some? ==>
      sent.value.url == ApiBase + BrowseEndpoint("featured-playlists", Paging.OrDefault(QueryInt(limit), DefaultLimit), 0, "US")
    ensures reply.Success? <==> sent.Some? && IsOk(response)
    ensures reply.Success? ==> reply == Success(200, response.body, None)
    ensures reply.Failure? ==> reply == Failure(500, FeaturedFailed)
  {
    var l := Paging.OrDefault(QueryInt(limit), DefaultLimit);
    var outcome;
    outcome, sent := Fetch(cfg, FeaturedPlaylists, BrowseEndpoint("featured-playlists", l, 0, "US"), now, exchange, response);
    reply := if outcome.Ok? then Success(200, outcome.value, None) else Failure(500, FeaturedFailed);
  }
}
