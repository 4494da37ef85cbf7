/**
 * The Spotify Web API wrapper: every operation first refuses to run without
 * credentials, then builds an endpoint, asks the credential cache to send
 * it, and turns any failure into a fixed message naming the operation.
 * What the service decides is modelled: the endpoint text, the truncation
 * of id lists, the recommendation parameters, the composed search text and
 * the conversion of a catalog track into a song. Percent-encoding is a
 * parameter, and the response body is handed in already parsed.
 */
module SpotifyService {
  import opened Wrappers
  import opened Schema
  import Text
  import SongModel
  import opened SpotifyConfig

  // ----- catalog records ------------------------------------------------------

  datatype Image = Image(url: string, height: int, width: int)
  datatype Artist = Artist(name: string)
  datatype Album = Album(name: string, images: seq<Image>)

  /** A catalog track; `preview_url` may be missing or `null`, both `None`. */
  datatype Track = Track(id: string, name: string, artists: seq<Artist>, album: Album, durationMs: int, previewUrl: Option<string>)

  /** The `tracks` part of a search answer. */
  datatype SearchResult = SearchResult(items: seq<Track>, total: nat, limit: int, offset: int)

  function ArtistNames(t: Track): (names: seq<string>)
    ensures |names| == |t.artists|
    ensures forall i :: 0 <= i < |names| ==> names[i] == t.artists[i].name
  {
    seq(|t.artists|, i requires 0 <= i < |t.artists| => t.artists[i].name)
  }

  /** `x || undefined` on a string that may be missing: a missing or empty string is dropped. */
  function NonEmpty(o: Option<string>): (r: Option<string>)
    ensures r.Some? <==> o.Some? && o.value != ""
    ensures r.Some? ==> r == o
  {
    if o.Some? && o.value != "" then o else None
  }

  /** The url of the album's first image, when there is one. */
  function FirstImageUrl(t: Track): (r: Option<string>)
    ensures r.Some? <==> |t.album.images| > 0
    ensures r.Some? ==> r.value == t.album.images[0].url
  {
    if |t.album.images| > 0 then Some(t.album.images[0].url) else None
  }

  /**
   * `convertSpotifyTrackToSong`: the song record for a catalog track. The
   * artists' names are joined with `", "` in their order; an empty image url
   * or preview counts as none.
   */
  function ConvertTrack(t: Track): (s: InsertSong)
    ensures s.spotifyId == t.id && s.name == t.name && s.album == t.album.name && s.duration == t.durationMs
    ensures s.artist == Text.Join(ArtistNames(t), ", ")
    ensures s.imageUrl.Some? <==> |t.album.images| > 0 && t.album.images[0].url != ""
    ensures s.imageUrl.Some? ==> s.imageUrl.value == t.album.images[0].url
    ensures s.previewUrl.Some? <==> t.previewUrl.Some? && t.previewUrl.value != ""
    ensures s.previewUrl.Some? ==> s.previewUrl == t.previewUrl
  {
    InsertSong(t.id, t.name, Text.Join(ArtistNames(t), ", "), t.album.name, t.durationMs,
               NonEmpty(FirstImageUrl(t)), NonEmpty(t.previewUrl))
  }

  /** A text with a character that is not white space survives trimming. */
  lemma PresentWith(s: string, i: nat)
    requires i < |s| && !Text.IsWhitespace(s[i])
    ensures SongModel.Present(s)
  {
  }

  /**
   * A track whose id, name, album name and first artist's name hold
   * something other than white space, and whose duration is not negative,
   * converts into a song the song schema accepts.
   */
  lemma ConvertedTrackValidates(t: Track)
    requires SongModel.Present(t.id) && SongModel.Present(t.name) && SongModel.Present(t.album.name)
    requires |t.artists| > 0 && SongModel.Present(t.artists[0].name)
    requires t.durationMs >= 0
    ensures SongModel.Validate(ConvertTrack(t)).Ok?
  {
    var s := ConvertTrack(t);
    var first := t.artists[0].name;
    Text.JoinStartsWithFirst(ArtistNames(t), ", ");
    var k :| 0 <= k < |first| && !Text.IsWhitespace(first[k]);
    assert s.artist[k] == first[k];
    PresentWith(s.artist, k);
  }

  // ----- requests -----------------------------------------------------------

  /** At most this many ids per `/tracks` request. */
  const MaxTracksPerRequest: nat := 50
  /** At most this many ids per `/audio-features` request. */
  const MaxAudioFeaturesPerRequest: nat := 100
  /** At most this many ids per recommendation seed list. */
  const MaxSeeds: nat := 5

  /** `ids.slice(0, max).join(',')`. */
  function IdsParam(ids: seq<string>, max: nat): (r: string)
  {
    Text.Join(Text.Take(ids, max), ",")
  }

  /** Splitting the parameter on `,` gives back the first `max` ids, when no id holds a comma. */
  lemma IdsParamReadsBack(ids: seq<string>, max: nat)
    requires |ids| > 0 && max > 0
    requires forall i :: 0 <= i < |ids| ==> ',' !in ids[i]
    ensures Text.Split(IdsParam(ids, max), ',') == Text.Take(ids, max)
    ensures |Text.Split(IdsParam(ids, max), ',')| <= max
  {
    Text.SplitJoin(Text.Take(ids, max), ',');
  }

  /** The query parameters `getRecommendations` may send. */
  datatype Key = SeedTracks | SeedArtists | SeedGenres | Limit | TargetEnergy | TargetDanceability | TargetValence

  /** A parameter's name on the wire. */
  function KeyName(k: Key): string {
    match k
    case SeedTracks => "seed_tracks"
    case SeedArtists => "seed_artists"
    case SeedGenres => "seed_genres"
    case Limit => "limit"
    case TargetEnergy => "target_energy"
    case TargetDanceability => "target_danceability"
    case TargetValence => "target_valence"
  }

  /** The options `getRecommendations` takes; the targets are given as `toString()` prints them. */
  datatype RecommendationOptions = RecommendationOptions(
    seedTracks: Option<seq<string>>, seedArtists: Option<seq<string>>, seedGenres: Option<seq<string>>,
    limit: Option<int>, targetEnergy: Option<string>, targetDanceability: Option<string>, targetValence: Option<string>)

  /** A seed list is emitted, cut to five, only when it has entries. */
  function SeedParam(key: Key, seeds: Option<seq<string>>): (ps: seq<(Key, string)>)
    ensures |ps| <= 1
    ensures |ps| == 1 <==> seeds.Some? && |seeds.value| > 0
    ensures |ps| == 1 ==> ps[0] == (key, IdsParam(seeds.value, MaxSeeds))
  {
    if seeds.Some? && |seeds.value| > 0 then [(key, IdsParam(seeds.value, MaxSeeds))] else []
  }

  /** A target is emitted whenever it is given, whatever its value. */
  function TargetParam(key: Key, target: Option<string>): (ps: seq<(Key, string)>)
    ensures |ps| == 1 <==> target.Some?
    ensures |ps| <= 1 && (|ps| == 1 ==> ps[0] == (key, target.value))
  {
    if target.Some? then [(key, target.value)] else []
  }

  /** `limit` is emitted only when it is truthy, as its decimal text. */
  function LimitParam(limit: Option<int>): (ps: seq<(Key, string)>)
    ensures |ps| == 1 <==> limit.Some? && limit.value != 0
    ensures |ps| <= 1 && (|ps| == 1 ==> ps[0] == (Limit, Text.IntToString(limit.value)))
  {
    if limit.Some? && limit.value != 0 then [(Limit, Text.IntToString(limit.value))] else []
  }

  /** The seed lists, in the order they are appended. */
  function SeedParams(o: RecommendationOptions): (ps: seq<(Key, string)>)
  {
    SeedParam(SeedTracks, o.seedTracks) + (SeedParam(SeedArtists, o.seedArtists) + SeedParam(SeedGenres, o.seedGenres))
  }

  /** The limit and the targets, in the order they are appended after the seeds. */
  function TuningParams(o: RecommendationOptions): (ps: seq<(Key, string)>)
  {
    LimitParam(o.limit) + (TargetParam(TargetEnergy, o.targetEnergy)
    + (TargetParam(TargetDanceability, o.targetDanceability) + TargetParam(TargetValence, o.targetValence)))
  }

  /** The query parameters of `getRecommendations`. */
  function RecommendationParams(o: RecommendationOptions): (ps: seq<(Key, string)>)
  {
    SeedParams(o) + TuningParams(o)
  }

  /** The value a parameter list gives `key`, if any: the first one appended. */
  function ParamValue(ps: seq<(Key, string)>, key: Key): (r: Option<string>)
  {
    if ps == [] then None else if ps[0].0 == key then Some(ps[0].1) else ParamValue(ps[1..], key)
  }

  /** A parameter list of at most one entry, in front of the others. */
  lemma ParamValuePrepend(seg: seq<(Key, string)>, rest: seq<(Key, string)>)
    requires |seg| <= 1
    ensures forall key :: ParamValue(seg + rest, key) == (if seg != [] && seg[0].0 == key then Some(seg[0].1) else ParamValue(rest, key))
  {
    if seg == [] {
      assert seg + rest == rest;
    } else {
      assert (seg + rest)[1..] == rest;
    }
  }

  lemma {:induction false} ParamValueConcat(a: seq<(Key, string)>, b: seq<(Key, string)>)
    ensures forall key :: ParamValue(a + b, key) == (if ParamValue(a, key).Some? then ParamValue(a, key) else ParamValue(b, key))
  {
    if a != [] {
      assert (a + b)[1..] == a[1..] + b;
      ParamValueConcat(a[1..], b);
    } else {
      assert a + b == b;
    }
  }

  /** Each seed list gets its own key, iff it has entries, and no other key is set. */
  lemma SeedParamsSent(o: RecommendationOptions)
    ensures var ps := SeedParams(o);
      && ParamValue(ps, SeedTracks) ==
           (if o.seedTracks.Some? && |o.seedTracks.value| > 0 then Some(IdsParam(o.seedTracks.value, MaxSeeds)) else None)
      && ParamValue(ps, SeedArtists) ==
           (if o.seedArtists.Some? && |o.seedArtists.value| > 0 then Some(IdsParam(o.seedArtists.value, MaxSeeds)) else None)
      && ParamValue(ps, SeedGenres) ==
           (if o.seedGenres.Some? && |o.seedGenres.value| > 0 then Some(IdsParam(o.seedGenres.value, MaxSeeds)) else None)
      && ParamValue(ps, Limit).None? && ParamValue(ps, TargetEnergy).None?
      && ParamValue(ps, TargetDanceability).None? && ParamValue(ps, TargetValence).None?
      && |ps| <= 3
  {
    var c := SeedParam(SeedGenres, o.seedGenres);
    var b := SeedParam(SeedArtists, o.seedArtists);
    ParamValuePrepend(c, []);
    assert c + [] == c;
    ParamValuePrepend(b, c);
    ParamValuePrepend(SeedParam(SeedTracks, o.seedTracks), b + c);
  }

  /** `limit` is sent iff truthy and each target iff given, and no seed list is set. */
  lemma TuningParamsSent(o: RecommendationOptions)
    ensures var ps := TuningParams(o);
      && ParamValue(ps, Limit) == (if o.limit.Some? && o.limit.value != 0 then Some(Text.IntToString(o.limit.value)) else None)
      && ParamValue(ps, TargetEnergy) == o.targetEnergy
      && ParamValue(ps, TargetDanceability) == o.targetDanceability
      && ParamValue(ps, TargetValence) == o.targetValence
      && ParamValue(ps, SeedTracks).None? && ParamValue(ps, SeedArtists).None? && ParamValue(ps, SeedGenres).None?
      && |ps| <= 4
  {
    var g := TargetParam(TargetValence, o.targetValence);
    var f := TargetParam(TargetDanceability, o.targetDanceability);
    var e := TargetParam(TargetEnergy, o.targetEnergy);
    ParamValuePrepend(g, []);
    assert g + [] == g;
    ParamValuePrepend(f, g);
    ParamValuePrepend(e, f + g);
    ParamValuePrepend(LimitParam(o.limit), e + (f + g));
  }

  /**
   * Each seed list is sent, cut to five and comma-joined, iff it has
   * entries; `limit` iff it is truthy; each target iff it is given; and
   * nothing else is sent.
   */
  lemma RecommendationParamsSent(o: RecommendationOptions)
    ensures var ps := RecommendationParams(o);
      && ParamValue(ps, SeedTracks) ==
           (if o.seedTracks.Some? && |o.seedTracks.value| > 0 then Some(IdsParam(o.seedTracks.value, MaxSeeds)) else None)
      && ParamValue(ps, SeedArtists) ==
           (if o.seedArtists.Some? && |o.seedArtists.value| > 0 then Some(IdsParam(o.seedArtists.value, MaxSeeds)) else None)
      && ParamValue(ps, SeedGenres) ==
           (if o.seedGenres.Some? && |o.seedGenres.value| > 0 then Some(IdsParam(o.seedGenres.value, MaxSeeds)) else None)
      && ParamValue(ps, Limit) == (if o.limit.Some? && o.limit.value != 0 then Some(Text.IntToString(o.limit.value)) else None)
      && ParamValue(ps, TargetEnergy) == o.targetEnergy
      && ParamValue(ps, TargetDanceability) == o.targetDanceability
      && ParamValue(ps, TargetValence) == o.targetValence
      && |ps| <= 7
  {
    SeedParamsSent(o);
    TuningParamsSent(o);
    ParamValueConcat(SeedParams(o), TuningParams(o));
  }

  /** The options of `advancedSearch`. */
  datatype SearchOptions = SearchOptions(
    query: string, kind: Option<string>, year: Option<string>, genre: Option<string>, limit: Option<int>, offset: Option<int>)

  /** The query text: the query, then ` year:Y` when a year is given, then ` genre:G` when a genre is. */
  function SearchText(o: SearchOptions): (q: string)
    ensures Text.StartsWith(q, o.query)
    ensures |q| == |o.query| + (if NonEmpty(o.year).Some? then 6 + |o.year.value| else 0)
                            + (if NonEmpty(o.genre).Some? then 7 + |o.genre.value| else 0)
    ensures NonEmpty(o.genre).Some? ==> q[|q| - |o.genre.value| - 7..] == " genre:" + o.genre.value
    ensures NonEmpty(o.year).Some? ==> q[|o.query|..|o.query| + 6 + |o.year.value|] == " year:" + o.year.value
    ensures NonEmpty(o.year).Some? && NonEmpty(o.genre).None? ==> q[|q| - |o.year.value| - 6..] == " year:" + o.year.value
  {
    var withYear := if NonEmpty(o.year).Some? then o.query + " year:" + o.year.value else o.query;
    var q := if NonEmpty(o.genre).Some? then withYear + " genre:" + o.genre.value else withYear;
    assert q[..|o.query|] == o.query;
    assert q[..|withYear|] == withYear;
    q
  }

  // ----- endpoints ------------------------------------------------------------

  /** Every catalog operation of the service. */
  datatype Operation =
    | SearchTracks | GetTrack | GetMultipleTracks | SearchArtists | SearchAlbums | ArtistTopTracks
    | ArtistAlbums | AlbumTracks | FeaturedPlaylists | NewReleases | GenreSeeds | Recommendations
    | AudioFeatures | AdvancedSearch

  const Spotify := "Spotify"
  const NotConfiguredService := Spotify + " is not properly configured." + " Please check your credentials."

  /** What each operation's failure message says before the service's name. */
  function FailurePrefix(op: Operation): string {
    match op
    case SearchTracks => "Failed to search tracks on "
    case GetTrack => "Failed to get track from "
    case GetMultipleTracks => "Failed to get tracks from "
    case SearchArtists => "Failed to search artists on "
    case SearchAlbums => "Failed to search albums on "
    case ArtistTopTracks => "Failed to get artist top tracks from "
    case ArtistAlbums => "Failed to get artist albums from "
    case AlbumTracks => "Failed to get album tracks from "
    case FeaturedPlaylists => "Failed to get featured playlists from "
    case NewReleases => "Failed to get new releases from "
    case GenreSeeds => "Failed to get genre seeds from "
    case Recommendations => "Failed to get recommendations from "
    case AudioFeatures => "Failed to get audio features from "
    case AdvancedSearch => "Failed to perform advanced search on "
  }

  /** The message each operation replaces any failure with, whatever the failure said. */
  function FailureMessage(op: Operation): (m: string)
    ensures Text.Contains(m, Spotify)
  {
    assert Text.OccursAt(Spotify, Spotify, 0);
    Text.ContainsInConcat(FailurePrefix(op), Spotify, Spotify);
    FailurePrefix(op) + Spotify
  }

  /** Every error the service raises names Spotify. */
  lemma ServiceErrorsMentionSpotify(op: Operation)
    ensures Text.Contains(FailureMessage(op), Spotify)
    ensures Text.Contains(NotConfiguredService, Spotify)
  {
    assert NotConfiguredService[..|Spotify|] == Spotify;
    assert Text.OccursAt(NotConfiguredService, Spotify, 0);
  }

  /**
   * The message `getTrack` fails with mentions no HTTP status: a 404 from
   * the catalog, a refused token and a network failure all end in it.
   */
  lemma TrackFailureHidesStatus()
    ensures !Text.Contains(FailureMessage(GetTrack), "404")
  {
    assert '4' !in "Failed to get track from ";
    assert '4' !in Spotify;
    Text.NotContainsWithoutFirstChar(FailureMessage(GetTrack), "404");
  }

  /** Nor does the message a service without credentials fails with. */
  lemma NotConfiguredHidesStatus()
    ensures !Text.Contains(NotConfiguredService, "404")
  {
    assert '4' !in Spotify;
    assert '4' !in " is not properly configured.";
    assert '4' !in " Please check your credentials.";
    Text.NotContainsWithoutFirstChar(NotConfiguredService, "404");
  }

  /** `getTrack`'s failure message reads as no conflict: it has no `u`, so no "duplicate". */
  lemma TrackFailureIsNoConflict()
    ensures !Text.Contains(FailureMessage(GetTrack), "duplicate")
  {
    assert 'u' !in FailureMessage(GetTrack);
    Text.NotContainsWithoutChar(FailureMessage(GetTrack), "duplicate", 1);
  }

  /** Nor does the message of a service without credentials: its only `d`s are followed by `.` and `e`. */
  lemma NotConfiguredIsNoConflict()
    ensures !Text.Contains(NotConfiguredService, "duplicate")
  {
    var s := NotConfiguredService;
    forall i | 0 <= i <= |s| - 9 ensures !Text.OccursAt(s, "duplicate", i) {
      if s[i] == 'd' {
        assert s[i + 1] != 'u';
        assert s[i..i + 9][1] == s[i + 1];
      }
    }
  }

  function SearchEndpoint(kind: string, q: string, limit: int, offset: int, encode: string -> string): string {
    "/search?q=" + encode(q) + "&type=" + kind + "&limit=" + Text.IntToString(limit) + "&offset=" + Text.IntToString(offset)
  }

  function TrackEndpoint(id: string): string {
    "/tracks/" + id
  }

  /** `/tracks?ids=…` with only the first fifty ids. */
  function TracksEndpoint(ids: seq<string>): string {
    "/tracks?ids=" + IdsParam(ids, MaxTracksPerRequest)
  }

  /** `/audio-features?ids=…` with only the first hundred ids. */
  function AudioFeaturesEndpoint(ids: seq<string>): string {
    "/audio-features?ids=" + IdsParam(ids, MaxAudioFeaturesPerRequest)
  }

  function ArtistTopTracksEndpoint(artistId: string, country: string): string {
    "/artists/" + artistId + "/top-tracks?country=" + country
  }

  function ArtistAlbumsEndpoint(artistId: string, limit: int, offset: int): string {
    "/artists/" + artistId + "/albums?limit=" + Text.IntToString(limit) + "&offset=" + Text.IntToString(offset)
      + "&include_groups=album,single"
  }

  function AlbumTracksEndpoint(albumId: string, limit: int, offset: int): string {
    "/albums/" + albumId + "/tracks?limit=" + Text.IntToString(limit) + "&offset=" + Text.IntToString(offset)
  }

  function BrowseEndpoint(list: string, limit: int, offset: int, country: string): string {
    "/browse/" + list + "?limit=" + Text.IntToString(limit) + "&offset=" + Text.IntToString(offset) + "&country=" + country
  }

  const GenreSeedsEndpoint := "/recommendations/available-genre-seeds"

  /** `URLSearchParams.toString()`: `key=value` pairs joined with `&`, each side encoded. */
  function QueryString(ps: seq<(Key, string)>, encode: string -> string): string {
    Text.Join(seq(|ps|, i requires 0 <= i < |ps| => encode(KeyName(ps[i].0)) + "=" + encode(ps[i].1)), "&")
  }

  function RecommendationsEndpoint(o: RecommendationOptions, encode: string -> string): string {
    "/recommendations?" + QueryString(RecommendationParams(o), encode)
  }

  /** `advancedSearch`'s endpoint: type, limit and offset default to `track`, 20 and 0 when falsy. */
  function AdvancedSearchEndpoint(o: SearchOptions, encode: string -> string): (e: string)
    ensures e == SearchEndpoint(
      if NonEmpty(o.kind).Some? then o.kind.value else "track",
      SearchText(o),
      if o.limit.Some? && o.limit.value != 0 then o.limit.value else 20,
      if o.offset.Some? && o.offset.value != 0 then o.offset.value else 0,
      encode)
  {
    var kind := if NonEmpty(o.kind).Some? then o.kind.value else "track";
    var limit := if o.limit.Some? && o.limit.value != 0 then o.limit.value else 20;
    var offset := if o.offset.Some? && o.offset.value != 0 then o.offset.value else 0;
    SearchEndpoint(kind, SearchText(o), limit, offset, encode)
  }

  // ----- the service methods --------------------------------------------------

  /**
   * One service operation: refuse without credentials before anything
   * else, then send `endpoint` through the credential cache and replace any
   * failure with the operation's own message.
   */
  method Fetch<T>(cfg: Config, op: Operation, endpoint: string, now: int, exchange: TokenExchange, response: Response<T>)
    returns (r: Result<T>, sent: Option<ApiRequest>)
    modifies cfg
    ensures !cfg.IsConfigured() ==> r == Err(NotConfiguredService) && sent.None?
    ensures !cfg.IsConfigured() ==> cfg.accessToken == old(cfg.accessToken) && cfg.tokenExpiresAt == old(cfg.tokenExpiresAt)
    ensures cfg.IsConfigured() && r.Err? ==> r.message == FailureMessage(op)
    ensures sent.Some? <==> cfg.IsConfigured() && (CacheHit(old(cfg.accessToken), old(cfg.tokenExpiresAt), now) || exchange.Granted?)
    ensures sent.Some? ==> sent.value.url == ApiBase + endpoint
    ensures r.Ok? <==> sent.Some? && IsOk(response)
    ensures r.Ok? ==> r.value == response.body
    ensures cfg.Refreshed(now, exchange)
  {
    if !cfg.IsConfigured() {
      return Err(NotConfiguredService), None;
    }
    var answer;
    answer, sent := cfg.MakeSpotifyRequest(endpoint, now, exchange, response);
    if answer.Err? {
      r := Err(FailureMessage(op));
    } else {
      r := Ok(answer.value.body);
    }
  }

  /** `getTrack(trackId)`. */
  method FetchTrack(cfg: Config, trackId: string, now: int, exchange: TokenExchange, response: Response<Track>)
    returns (r: Result<Track>)
    modifies cfg
    ensures !cfg.IsConfigured() ==> r == Err(NotConfiguredService)
    ensures cfg.IsConfigured() && r.Err? ==> r.message == FailureMessage(GetTrack)
    ensures r.Ok? <==>
      cfg.IsConfigured() && (CacheHit(old(cfg.accessToken), old(cfg.tokenExpiresAt), now) || exchange.Granted?) && IsOk(response)
    ensures r.Ok? ==> r.value == response.body
    ensures cfg.Refreshed(now, exchange)
  {
    var sent;
    r, sent := Fetch(cfg, GetTrack, TrackEndpoint(trackId), now, exchange, response);
  }

  /** A 404 answer fails the request with a message that says 404. */
  lemma NotFoundNamesStatus(statusText: string)
    ensures Text.Contains(RequestFailed(404, statusText), "404")
  {
    assert Text.IntToString(404) == "404";
  }

  /** The message `getTrack` fails with when it keeps what went wrong. */
  function TrackFailureWithCause(cause: string): (m: string)
    ensures Text.StartsWith(m, FailureMessage(GetTrack))
    ensures Text.Contains(cause, "404") ==> Text.Contains(m, "404")
  {
    var m := FailureMessage(GetTrack) + ": " + cause;
    assert Text.Contains(cause, "404") ==> Text.Contains(m, "404") by {
      if Text.Contains(cause, "404") {
        Text.ContainsInConcat(FailureMessage(GetTrack) + ": ", cause, "404");
      }
    }
    m
  }

  /**
   * `getTrack` as it is evidently meant to fail: the same message, followed
   * by the reason the request failed, so that a catalog miss still reads
   * as a 404 to the handlers.
   */
  method FetchTrackWithCause(cfg: Config, trackId: string, now: int, exchange: TokenExchange, response: Response<Track>)
    returns (r: Result<Track>)
    modifies cfg
    ensures !cfg.IsConfigured() ==> r == Err(NotConfiguredService)
    ensures cfg.IsConfigured() && r.Err? ==> Text.StartsWith(r.message, FailureMessage(GetTrack))
    ensures r.Ok? <==>
      cfg.IsConfigured() && (CacheHit(old(cfg.accessToken), old(cfg.tokenExpiresAt), now) || exchange.Granted?) && IsOk(response)
    ensures r.Ok? ==> r.value == response.body
    ensures (cfg.IsConfigured() && (CacheHit(old(cfg.accessToken), old(cfg.tokenExpiresAt), now) || exchange.Granted?) &&
             response.status == 404) ==> r.Err? && Text.Contains(r.message, "404")
    ensures cfg.Refreshed(now, exchange)
  {
    if !cfg.IsConfigured() {
      return Err(NotConfiguredService);
    }
    var answer, sent := cfg.MakeSpotifyRequest(TrackEndpoint(trackId), now, exchange, response);
    if answer.Err? {
      if response.status == 404 {
        NotFoundNamesStatus(response.statusText);
      }
      r := Err(TrackFailureWithCause(answer.message));
    } else {
      r := Ok(answer.value.body);
    }
  }

  /**
   * `testApiAccess`: true iff the credentials are set and a token can be
   * had, from the cache or from the accounts service.
   */
  method TestApiAccess(cfg: Config, now: int, exchange: TokenExchange) returns (accessible: bool)
    modifies cfg
    ensures accessible <==>
      cfg.IsConfigured() && (CacheHit(old(cfg.accessToken), old(cfg.tokenExpiresAt), now) || exchange.Granted?)
    ensures cfg.Refreshed(now, exchange)
  {
    if !cfg.IsConfigured() {
      return false;
    }
    var token, _ := cfg.GetAccessToken(now, exchange);
    accessible := token.Ok?;
  }

  /** The object `getConfigurationStatus` returns. */
  datatype ConfigurationStatus = ConfigurationStatus(status: ConfigStatus, isConfigured: bool, apiAccessible: bool)

  /** `getConfigurationStatus`: the cache's status as it was, then whether a token can be had. */
  method GetConfigurationStatus(cfg: Config, now: int, exchange: TokenExchange) returns (s: ConfigurationStatus)
    modifies cfg
    ensures s.status == old(cfg.GetConfigStatus(now))
    ensures s.isConfigured <==> cfg.IsConfigured()
    ensures s.apiAccessible <==>
      cfg.IsConfigured() && (CacheHit(old(cfg.accessToken), old(cfg.tokenExpiresAt), now) || exchange.Granted?)
    ensures cfg.Refreshed(now, exchange)
  {
    var status := cfg.GetConfigStatus(now);
    var accessible := TestApiAccess(cfg, now, exchange);
    s := ConfigurationStatus(status, cfg.IsConfigured(), accessible);
  }
}
