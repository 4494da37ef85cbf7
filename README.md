# Playlist API core, modelled in Dafny

This project models the server side of a playlist web API. Users register, log in and keep playlists of songs. Songs are imported from the Spotify catalog or entered directly.

The model replaces MongoDB with an in-memory store, the class `Store.Db`:
- three maps (users, playlists, songs) keyed by natural-number ids;
- ids come from one shared counter, so ascending ids are insertion order, which is MongoDB's natural order;
- `Db.Valid()` collects what the schemas and unique indexes guarantee:
  - every document passed its model's validators;
  - `spotifyId`, `email` and `username` are unique;
  - no playlist lists a song twice;
  - every listed song is stored.

Every state-changing service method preserves `Valid()` and states its whole new state.

What the model takes as parameters instead of performing it:
- the clock is a natural-number parameter `now`;
- bcrypt and JSON Web Tokens are uninterpreted functions: `hash`, `verify` and `sign`, packed in `AuthService.Crypto`;
- the Spotify token exchange and the catalog's HTTP response are parameters (`TokenExchange`, `Response<T>`);
- the caller's identity, which the authentication middleware would attach, is a parameter of each handler.

Modules follow the source files:
- services: `PlaylistService`, `SongService`, `SpotifyService`, `AuthService`;
- controllers: `PlaylistController`, `SongController`, `SpotifyController`, `AuthController`;
- the credential cache: `SpotifyConfig`;
- models: `PlaylistModel`, `SongModel`, `UserModel`;
- the shared schemas: `Schema`;
- the validators: `Validation`;
- the `/api` gate: `AuthGate`;
- the error fallback: `ErrorHandler`.

Shared helpers:
- `Text`: trimming, case folding, substring search, split and join, decimal printing;
- `Collection`: filtering, occurrence counting, duplicate-freedom;
- `Sorting`: a stable insertion sort with its permutation proof;
- `Paging`: skip/limit windows and `Math.ceil` page counts.

## Model

| member | source | states |
|---|---|---|
| Schema.ParseInsertUser | client/shared/schema.ts:4-9 | accepts a body iff it has string `username`, `email`, `password` and `name` meeting 3–50, e-mail format, ≥ 6 and 1–100; the result carries exactly those strings |
| Schema.InsertUserRoundTrip | client/shared/schema.ts:4-9 | a registration round-trips through its JSON body exactly when it is valid |
| Schema.InsertUserIgnoresExtraKeys | client/shared/schema.ts:4-9 | keys outside the schema never change the parse |
| Schema.ParseLoginUser | client/shared/schema.ts:11-14 | accepts iff the e-mail is well-formed and the password non-empty, and returns exactly those two strings |
| Schema.ParseInsertPlaylist | client/shared/schema.ts:30-33 | accepts iff `name` is 1–100 chars and an optional string `description` is ≤ 500 |
| Schema.ParseUpdatePlaylist | client/shared/schema.ts:35 | the same rules with `name` optional too; an absent key stays absent |
| Schema.EmptyUpdateAccepted | client/shared/schema.ts:35 | the partial schema accepts `{}` |
| Schema.InsertPlaylistIsUpdate | client/shared/schema.ts:30-35 | every insert body is an update body setting the same fields |
| Schema.ParseInsertSong | client/shared/schema.ts:51-59 | accepts iff four strings and a number are present and both urls are absent or strings; no range or length is imposed |
| Schema.ParseSongUpdate | client/shared/schema.ts:51-59 | `insertSongSchema.partial()`: every field optional but of its own type when present |
| Schema.InsertSongIsUpdate | client/shared/schema.ts:51-59 | a full song body is a partial one setting every required field |
| Schema.InsertSongRoundTrip | client/shared/schema.ts:51-59 | every song record round-trips through its JSON body |
| Schema.NegativeDurationPassesSchema | client/shared/schema.ts:56 | a negative `duration` passes the schema (only the model rejects it) |
| PlaylistModel.Validate | server/models/Playlist.ts:8-28 | after trimming: Ok iff the name is non-empty and ≤ 100, any description ≤ 500, and an owner is given; the saved fields are the trimmed ones; a failure is a `ValidationError` listing every failed path |
| PlaylistModel.ValidateShowsLongValues | server/models/Playlist.ts:9-19 | an over-long trimmed name or description fails the save, and the message prints that value, as Mongoose's `maxlength` message does |
| PlaylistModel.ValidateSaved | server/models/Playlist.ts:9-19 | saving an already-saved playlist passes and changes no field |
| PlaylistModel.SavedDescriptionTrimmed | server/models/Playlist.ts:15-19 | a saved description is already trimmed |
| PlaylistModel.TrimOptionIdempotent | server/models/Playlist.ts:12 | the trim setter is idempotent |
| PlaylistModel.ValidateUpdate | server/models/Playlist.ts:9-19 | the update validators check only the paths the update sets, by the save rules and with the same messages, and return them trimmed |
| PlaylistModel.ValidateUpdateShowsLongValues | server/models/Playlist.ts:9-19 | an update setting an over-long name or description fails, and the message prints the trimmed value |
| PlaylistModel.ApplyUpdate | server/models/Playlist.ts:8-28 | a set path is replaced and an unset one kept; the owner never changes |
| PlaylistModel.UpdateKeepsValid | server/models/Playlist.ts:9-19 | a validated update keeps a valid playlist valid |
| PlaylistModel.CastString | server/models/Playlist.ts:9-19 | the cast to a String path: strings stay, numbers print, `null` is absent, objects fail with a ValidationError |
| SongModel.Validate | server/models/Song.ts:8-42 | Ok iff `spotifyId`, `name`, `artist`, `album` are non-blank and `duration` ≥ 0; the result is the trimmed record; a failure is a `ValidationError` listing every failed path |
| SongModel.NegativeDurationShown | server/models/Song.ts:30-34 | a negative duration fails the save, and the message prints the value, as Mongoose's `min` message does |
| SongModel.ValidateSaved | server/models/Song.ts:8-42 | validation leaves a saved song's fields exactly as they are |
| SongModel.TrimOptionIdempotent | server/models/Song.ts:35-42 | the trim setter on the optional urls is idempotent |
| SongModel.MakeSong | server/models/Song.ts:44 | a stored song carries the validated fields, its id, and `createdAt = updatedAt = now` |
| SongModel.ValidateUpdate | server/models/Song.ts:8-42 | the update validators check only the set paths, by the save rules and with the same messages, and trim them |
| SongModel.NegativeDurationUpdateShown | server/models/Song.ts:30-34 | an update setting a negative duration fails, and the message prints the value |
| SongModel.UpdateKeepsValid | server/models/Song.ts:8-42 | a validated update keeps a valid song valid |
| UserModel.Validate | server/models/User.ts:60-68 | `required`: Ok iff all four strings are non-empty; a failure is a `ValidationError` with the model's prefix |
| UserModel.ValidateUpdate | server/models/User.ts:60-68 | only the set paths are checked against `required` |
| UserModel.SavedPasswordMatches | server/models/User.ts:71-88 | with an idealised bcrypt (`BcryptLike`), a password the hook hashed on save is matched by `comparePassword` for exactly the text that was saved |
| UserModel.RehashedPasswordFails | server/models/User.ts:71-88 | saving text that is already `hash(pw)` stores a hash of the hash, which `pw` no longer matches unless `hash(pw) == pw` |
| UserModel.UnmodifiedPasswordKeepsMatching | server/models/User.ts:71-88 | a save that leaves the password unmodified does not change what `comparePassword` accepts |
| Store.PutSong | server/models/Song.ts:9-14 | storing a valid song whose `spotifyId` no other song holds keeps the unique index and every playlist reference |
| Store.PutUser | server/models/User.ts:62-63 | storing a user whose e-mail and username no other user holds keeps both unique indexes |
| Store.PutPlaylist | server/models/Playlist.ts:20-28 | storing an owned playlist with a duplicate-free, resolving song list keeps the playlists valid |
| Paging.OrDefault | server/controllers/playlistController.ts:29-30 | `parseInt(x) \|\| d`: a NaN or 0 falls back to `d`, any other value is kept |
| Paging.CeilDiv | server/services/playlistService.ts:54 | `Math.ceil(total / limit)`: bounded by `(r-1)·limit < total ≤ r·limit` for a positive limit, mirrored for a negative one |
| Paging.Paginate | server/services/songService.ts:17-50 | Ok iff `(page-1)·limit` ≥ 0; the data is the window at that offset of at most abs(limit) items; the count and the page count are reported |
| Paging.WindowOfSorted | server/services/songService.ts:36-40 | a window of a sorted result holds only its items, still sorted |
| Paging.PageBounds | server/services/playlistService.ts:18-56 | pages 1..totalPages are non-empty, all but the last are full, and later pages are empty |
| Paging.PagesCoverResult | server/services/playlistService.ts:18-56 | reading pages 1..totalPages in turn yields every match once, in order |
| Paging.TwentyFiveMatchesScenario | server/services/songService.ts:17-50 | 25 matches with limit 20: page 1 has 20, page 2 has 5, 2 pages in all |
| Http.QueryIntPrinted | server/controllers/playlistController.ts:29-30 | a query value that prints an integer parses back to it |
| Mongo.DuplicateKeyError | server/models/Song.ts:12 | a unique-index violation message starts with `E11000` and contains "duplicate" |
| PlaylistService.NewestFirst | server/services/playlistService.ts:43 | the listing order is a total preorder by `updatedAt`, descending |
| PlaylistService.UserMatches | server/services/playlistService.ts:21-28 | exactly the stored playlists owned by the user and matching the search, sorted newest first |
| PlaylistService.UserMatchesCount | server/services/playlistService.ts:31 | the listing counts exactly the matching playlists |
| PlaylistService.GetUserPlaylists | server/services/playlistService.ts:12-57 | `total` counts every match; the data is the window at `(page-1)·limit` of the sorted matches, all owned by the user; `totalPages = ceil(total/limit)` |
| PlaylistService.GetPlaylistById | server/services/playlistService.ts:62-78 | found iff the id exists and the caller owns it |
| PlaylistService.SavePlaylist | server/services/playlistService.ts:84-89 | saves iff the model validates; the new playlist gets a fresh id and the trimmed fields; a failure changes nothing |
| PlaylistService.CreatePlaylist | server/services/playlistService.ts:83-98 | Ok iff the model validates; the new playlist is `Playlist(nextId, trimmed name, trimmed description, caller, [], now, now)` under a fresh id; a failure stores nothing and nothing else changes |
| PlaylistService.UpdatePlaylist | server/services/playlistService.ts:103-124 | fails iff the update validators fail; updates iff the caller owns the playlist; only the set fields and `updatedAt` change; songs and owner are kept |
| PlaylistService.DeletePlaylist | server/services/playlistService.ts:129-136 | true iff the caller owned it, in which case exactly that playlist is gone |
| PlaylistService.AddSongToPlaylist | server/services/playlistService.ts:141-184 | "Song not found" iff the song is unknown, checked first; `None` iff the caller does not own the playlist; "already exists" iff it is listed; otherwise the song is appended; every failure changes nothing |
| PlaylistService.RemoveSongFromPlaylist | server/services/playlistService.ts:189-210 | owner-scoped; every occurrence of the song goes and the others keep their order |
| Collection.WithoutIdempotent | server/services/playlistService.ts:194-197 | pulling a song twice is pulling it once |
| PlaylistService.CopyName | server/services/playlistService.ts:323-341 | `newName \|\| name + " (Copy)"` |
| PlaylistService.DuplicatePlaylist | server/services/playlistService.ts:323-361 | `null` iff the original does not exist, with nothing stored; otherwise, whoever owns the original, Ok iff the copy validates, and the copy is `Playlist(nextId, trimmed CopyName, original description, caller, original songs in order, now, now)`; a failure stores nothing |
| PlaylistService.Populate | server/services/playlistService.ts:220 | `populate('songs')`: when every id resolves, the i-th song is the stored song of the i-th id |
| PlaylistService.TotalDurationAppend | server/services/playlistService.ts:228-230 | the `reduce` adds each song's duration |
| PlaylistService.TotalDurationNonNegative | server/services/playlistService.ts:228-230 | a sum of non-negative durations is non-negative |
| PlaylistService.FormatDurationReadsBack | server/services/playlistService.ts:363-373 | "Hh Mm" once there is a whole hour, "Mm Ss" before, with h, m and s the true quotient and remainders |
| PlaylistService.GetPlaylistStats | server/services/playlistService.ts:215-239 | `None` iff not found for the caller; the count and total duration are those of the populated songs |
| PlaylistService.StatsOfValidStore | server/services/playlistService.ts:227-230 | in a valid store `songCount` is the list length and the total is not negative |
| SongService.Query | server/services/songService.ts:33-40 | every stored song matching the filter, sorted by the given order |
| SongService.QueryCount | server/services/songService.ts:33 | the result length is the number of matches `countDocuments` counts |
| SongService.FindPage | server/services/songService.ts:33-50 | the page is the window of the ordered matches; `total` counts them all |
| SongService.NewestFirst | server/services/songService.ts:37 | a total preorder by `createdAt`, descending |
| SongService.ByName | server/services/songService.ts:354 | a total preorder by `name`, ascending |
| SongService.GetSongs | server/services/songService.ts:12-51 | the data is the window at offset `(page-1)·limit`, at most `abs(limit)` long, of every song matching the search in name, artist or album, newest first; `total` counts all matches and `totalPages = ceil(total/limit)` |
| SongService.GetSongById | server/services/songService.ts:56-59 | found iff the id is stored |
| SongService.GetSongBySpotifyId | server/services/songService.ts:64-67 | found iff some stored song has the trimmed `spotifyId` |
| SongService.LookupFindsStored | server/services/songService.ts:64-67 | with the unique index, the lookup returns the one song holding that id |
| SongService.AtMostOneSongPerSpotifyId | server/models/Song.ts:12 | in a valid store two songs with one `spotifyId` are the same song |
| SongService.CreateSong | server/services/songService.ts:72-84 | an existing `spotifyId` returns that song and inserts nothing; otherwise it inserts exactly one song iff it validates; afterwards the lookup finds the returned song |
| SongService.SaveSong | server/services/songService.ts:80-81 | a validated song with a free `spotifyId` is stored under a fresh id |
| SongService.WithFields | server/services/songService.ts:90-94 | an updated song keeps its id and `createdAt` and gets the new fields and `updatedAt` |
| SongService.UpdateSong | server/services/songService.ts:89-97 | invalid updates fail; an unknown id gives `None`; a `spotifyId` another song holds is a duplicate-key error; otherwise the set paths change |
| SongService.DetachAllUnlists | server/services/songService.ts:105-108 | after the `$pull` no playlist lists the song, every other entry stays, and untouched playlists are equal |
| SongService.DetachAllIdempotent | server/services/songService.ts:105-108 | detaching twice is detaching once |
| SongService.DetachKeepsValid | server/services/songService.ts:103-113 | the detached playlists stay valid once the song is gone |
| SongService.DeleteSong | server/services/songService.ts:103-113 | the detach happens whether or not the song exists; true iff it existed; exactly that song is removed |
| SongService.BatchStepKept | server/services/songService.ts:290-298 | one more item created: the song is kept with its item's index and stored |
| SongService.BatchStepSkipped | server/services/songService.ts:290-298 | one more item that failed validation: it is skipped and nothing is kept |
| SongService.BatchMadeStep | server/services/songService.ts:290-298 | the song `createSong` returns is one already stored before the batch, one an earlier item returned, or `MakeSong` of its own item |
| SongService.SkippedWereFreeSkip | server/services/songService.ts:290-298 | an item `createSong` refused had no song under its key, so neither a song from before the batch nor an earlier item's song holds it |
| SongService.SkippedWereFreeKeep | server/services/songService.ts:290-298 | a created item leaves every earlier skipped item free of the songs returned before it |
| SongService.BatchCreateSongs | server/services/songService.ts:287-301 | returns the successful creations in input order, each stored under its item's trimmed `spotifyId`; each is a song stored before the batch, the song an earlier item returned, or exactly `MakeSong` of its own item's validated fields; an item is skipped only if it failed validation and, when it was tried, no song stored before the batch and none returned for an earlier item held its trimmed `spotifyId`; equal `spotifyId`s return the same song; the store's ids afterwards are the old ones plus those of the returned songs, and old songs are unchanged |
| SongService.Truthy | server/services/songService.ts:322 | a string filter applies iff non-empty |
| SongService.TruthyNumber | server/services/songService.ts:341-348 | a number filter applies iff non-zero |
| SongService.AdvancedSearchConditions | server/services/songService.ts:319-349 | a song matches iff the text, artist, album and duration conditions each hold where given; they are conjoined |
| SongService.ZeroBoundIgnored | server/services/songService.ts:341-348 | a duration bound of 0 builds the same query as no bound |
| SongService.AdvancedSearch | server/services/songService.ts:306-368 | `page`/`limit` default to 1/20 when falsy; the data is the window at offset `(page-1)·limit`, at most `abs(limit)` long, of every song meeting all given conditions, sorted by name; `total` counts all of them |
| SongService.Groups | server/services/songService.ts:121-129 | `$unwind` + `$group`: one group per referenced id, its count being its number of entries |
| SongService.MostReferencedFirst | server/services/songService.ts:132 | a total preorder by count, descending |
| SongService.LookupAll | server/services/songService.ts:138-148 | each group joined to its stored song; groups without a song are dropped |
| SongService.Ranked | server/services/songService.ts:121-132 | every referenced id once, with its count, sorted by count |
| SongService.Popular | server/services/songService.ts:119-166 | at most `limit` results; each is a stored song with its true, positive entry count; a non-positive limit fails |
| SongService.GetPopularSongs | server/services/songService.ts:118-169 | the pipeline over all stored playlists |
| SongService.SortedGroupsOrdered | server/services/songService.ts:132 | in a sorted run, counts never increase |
| SongService.PopularIsRankedPrefix | server/services/songService.ts:119-166 | with every id resolving, the result is the first `limit` ranked groups joined to their songs |
| SongService.PopularRanked | server/services/songService.ts:119-166 | counts never increase, no song repeats, and a referenced song left out was cut by a full limit of songs referenced at least as often |
| SongService.PrefixRanks | server/services/songService.ts:132-135 | a prefix of a ranking stays ordered and duplicate-free |
| SongService.CutPastLimit | server/services/songService.ts:132-135 | a ranked group missing from the cut lies past a full cut |
| SongService.ReferencedSongsStored | server/services/songService.ts:138-148 | in a valid store every referenced id resolves, so `$lookup` drops nothing |
| SongService.PopularSongsRanked | server/services/songService.ts:118-169 | on a valid store the result is ordered by count with no repeats |
| SongService.Lists | server/services/songService.ts:260-262 | the filter `{songs: id}` holds iff the playlist lists the song |
| SongService.SongListsCount | server/services/songService.ts:260-262 | counting lists holding the id counts the playlists that list it |
| SongService.Listing | server/services/songService.ts:265-273 | exactly the playlists listing the song, once each |
| SongService.OccurrencesCountPlaylists | server/services/songService.ts:260-262 | with duplicate-free lists, `$group`'s count equals `countDocuments({songs: id})` |
| SongService.Summary | server/services/songService.ts:268-272 | a playlist's name and id with its owner populated, `None` when the owner is gone |
| SongService.GetSongStats | server/services/songService.ts:252-282 | `None` iff the song is unknown; `playlistCount` is the number of playlists listing it, one summary each |
| SongService.PopularCountIsStatsCount | server/services/songService.ts:118-169 | the popular count of a song equals its stats count |
| SpotifyConfig.FirstSet | server/config/spotify.ts:19-20 | `a \|\| b \|\| ''` over environment variables |
| SpotifyConfig.ExpiryOf | server/config/spotify.ts:61 | `now + (expires_in − 300)·1000` |
| SpotifyConfig.GrantedTokenLifetime | server/config/spotify.ts:31-61 | a token granted for more than 300 s is served from the cache until 300 s before Spotify's expiry, not after; a shorter one is never served |
| SpotifyConfig.RequestFailed | server/config/spotify.ts:85-89 | the error of a non-ok response carries its status |
| SpotifyConfig.Config.constructor | server/config/spotify.ts:12-25 | credentials from the environment, no cached token, expiry 0 |
| SpotifyConfig.Config.GetConfigStatus | server/config/spotify.ts:104-112 | `isTokenValid` is exactly the cache-hit test; the credential flags match `isConfigured` |
| SpotifyConfig.Config.GetAccessToken | server/config/spotify.ts:31-68 | a cached token is served iff present and `now < expiry`, with no exchange; a miss without credentials fails before any exchange; a granted exchange stores the token and its expiry; a failed one fails and leaves the cache untouched |
| SpotifyConfig.Config.MakeSpotifyRequest | server/config/spotify.ts:73-92 | sends only with a token, as a bearer header, to the API base + endpoint; a non-ok response fails with its status; after a fresh grant the cache holds the granted token and its expiry, otherwise the cache is unchanged |
| SpotifyService.ArtistNames | server/services/spotifyService.ts:324 | the artists' names, in order |
| SpotifyService.NonEmpty | server/services/spotifyService.ts:327-328 | `x \|\| undefined`: a missing or empty string is dropped |
| SpotifyService.FirstImageUrl | server/services/spotifyService.ts:327 | the first album image's url, absent iff there are no images |
| SpotifyService.ConvertTrack | server/services/spotifyService.ts:320-330 | id, name, album name and duration map across; artists are joined with ", "; empty image urls and previews are dropped |
| SpotifyService.ConvertedTrackValidates | server/services/spotifyService.ts:320-330 | a track with non-blank fields and a non-negative duration converts into a song the model accepts |
| SpotifyService.IdsParamReadsBack | server/services/spotifyService.ts:53-71 | splitting the parameter on `,` gives back the first `max` ids |
| SpotifyService.SeedParam | server/services/spotifyService.ts:256-266 | a seed list is emitted, cut to five, iff it has entries |
| SpotifyService.TargetParam | server/services/spotifyService.ts:272-282 | a target is emitted iff given |
| SpotifyService.LimitParam | server/services/spotifyService.ts:268-270 | `limit` is emitted iff truthy, as its decimal text |
| SpotifyService.ParamValuePrepend | server/services/spotifyService.ts:256-282 | a leading single parameter decides its own key and defers the others |
| SpotifyService.ParamValueConcat | server/services/spotifyService.ts:256-282 | appended parameters keep the value the earlier ones gave |
| SpotifyService.SeedParamsSent | server/services/spotifyService.ts:256-266 | each seed key is sent iff its list has entries; no other key is set |
| SpotifyService.TuningParamsSent | server/services/spotifyService.ts:268-282 | `limit` iff truthy, each target iff given; no seed key |
| SpotifyService.RecommendationParamsSent | server/services/spotifyService.ts:240-293 | the whole parameter set of `getRecommendations`, key by key, and nothing else |
| SpotifyService.SearchText | server/services/spotifyService.ts:378-386 | the query, then ` year:Y` and ` genre:G` when given, in that order |
| SpotifyService.AdvancedSearchEndpoint | server/services/spotifyService.ts:365-404 | type, limit and offset default to `track`, 20 and 0 when falsy |
| SpotifyService.FailureMessage | server/services/spotifyService.ts:24-27 | every operation's fixed failure message names Spotify |
| SpotifyService.ServiceErrorsMentionSpotify | server/services/spotifyService.ts:11-28 | both the not-configured error and every rewrapped error mention Spotify |
| SpotifyService.TrackFailureHidesStatus | server/services/spotifyService.ts:44-47 | `getTrack`'s failure message never contains "404" |
| SpotifyService.NotConfiguredHidesStatus | server/services/spotifyService.ts:34-36 | nor does the not-configured message |
| SpotifyService.TrackFailureIsNoConflict | server/services/spotifyService.ts:44-47 | `getTrack`'s failure message never contains "duplicate" |
| SpotifyService.NotConfiguredIsNoConflict | server/services/spotifyService.ts:12-14 | nor does the not-configured message |
| SpotifyService.Fetch | server/services/spotifyService.ts:11-30 | without credentials, fails before any request with the cache untouched; otherwise any failure becomes the operation's fixed message; the cache afterwards is `Refreshed`: the granted token and expiry after a fresh grant, else as it was |
| SpotifyService.FetchTrack | server/services/spotifyService.ts:33-50 | `getTrack` as written: succeeds iff a token is had and the answer is ok; any failure is the fixed message; the cache afterwards is `Refreshed` |
| SpotifyService.NotFoundNamesStatus | server/config/spotify.ts:85-89 | a 404 answer's error says 404 |
| SpotifyService.TrackFailureWithCause | server/services/spotifyService.ts:44-47 | the corrected message keeps the cause, so a 404 stays visible |
| SpotifyService.FetchTrackWithCause | server/services/spotifyService.ts:33-50 | as `FetchTrack`, but a 404 answer fails with a message containing "404"; the cache afterwards is `Refreshed` |
| SpotifyService.TestApiAccess | server/services/spotifyService.ts:348-362 | true iff configured and a token can be had; the cache afterwards is `Refreshed` |
| SpotifyService.GetConfigurationStatus | server/services/spotifyService.ts:335-346 | the cache status as it was, `isConfigured`, and API accessibility; the cache afterwards is `Refreshed` |
| SpotifyController.SearchReply | server/controllers/spotifyController.ts:31-66 | a result gives 200 with `ceil` page bounds; a failure mentioning Spotify gives 503, any other 500 |
| SpotifyController.SearchFailuresAreUnavailable | server/controllers/spotifyController.ts:50-66 | every failure the service can report gives 503 |
| SpotifyController.SearchTracksHandler | server/controllers/spotifyController.ts:17-73 | a blank `q` is 400 before any catalog call; page/limit default to 1/20 on NaN or 0; the request skips `(page-1)·limit` |
| SpotifyController.TrackDetailsReply | server/controllers/spotifyController.ts:75-112 | a failure mentioning 404 gives 404, any other 500 |
| SpotifyController.TrackDetailsHandlerAsWritten | server/controllers/spotifyController.ts:75-112 | as written, a catalog 404 is answered 500 and 404 is never sent |
| SpotifyController.TrackDetailsHandler | server/controllers/spotifyController.ts:75-112 | over the corrected `getTrack`, a catalog 404 is answered 404 |
| SpotifyController.HandlerSongData | server/controllers/spotifyController.ts:150-159 | the handler's own conversion: like the service's, but it keeps empty urls |
| SpotifyController.HandlerSongDataIsConversion | server/controllers/spotifyController.ts:150-159 | the two conversions agree iff no image url or preview is empty |
| SpotifyController.AddFailure | server/controllers/spotifyController.ts:171-186 | "404" gives 404, else "duplicate" 409, else 500 |
| SpotifyController.AddTrackToDatabaseAsWritten | server/controllers/spotifyController.ts:114-192 | the program: no user gives 401; a falsy id gives 400; a stored id returns that song with 200 and no catalog call; any failure to fetch the track, a catalog 404 included, is 500 with the store unchanged; a fetched track that validates gives 201 with the song already stored under the track's id, else exactly `MakeSong` of `HandlerSongData(track)` under a fresh id; a fetched, unstored track that fails validation is answered by the `includes` tests on the validation message, with the store unchanged; the cache is `Refreshed` iff the catalog was asked |
| SpotifyController.CatalogMissIsServerError | server/controllers/spotifyController.ts:171-186 | both messages `getTrack` can fail with map to 500, never to 404 or 409 |
| SpotifyController.AddTrackToDatabase | server/controllers/spotifyController.ts:114-192 | the corrected twin over `SpotifyService.FetchTrackWithCause`: the same, the created record and the validation failures included, except that a catalog 404 is answered 404 |
| SpotifyController.NegativeDurationReadsAsMissing | server/controllers/spotifyController.ts:160-175 | a fetched track with `duration_ms` -404 fails validation with a message containing "404", so it is answered 404 "Track not found" |
| SpotifyController.RequestedIds | server/controllers/spotifyController.ts:198-206 | the comma-separated ids, trimmed, at most fifty |
| SpotifyController.RequestedIdsSent | server/controllers/spotifyController.ts:198-206 | the ids the request carries read back as the requested ones |
| SpotifyController.MultipleTracksHandler | server/controllers/spotifyController.ts:194-225 | missing ids give 400; the request carries the truncated ids; any failure gives 500 |
| SpotifyController.StatusHandler | server/controllers/spotifyController.ts:227-246 | always 200 with the configuration status |
| SpotifyController.FeaturedPlaylistsHandler | server/controllers/spotifyController.ts:248-266 | limit defaults to 20; any failure gives 500 |
| PlaylistController.ListPlaylists | server/controllers/playlistController.ts:19-56 | no user gives 401; for every query, page and limit are `parseInt(x) \|\| default` (1, 20); the reply is 200 iff the offset is not negative, with exactly the service's page: the window of the caller's matching playlists at that offset and the true count |
| PlaylistController.ListPageFromQuery | server/controllers/playlistController.ts:29-30 | a printed positive page is the page listed, at the default size |
| PlaylistController.GetPlaylistReply | server/controllers/playlistController.ts:58-88 | the first status written: 401 without a user, 404 unless found for the caller, else 200 |
| PlaylistController.GetPlaylistPopulatesAll | server/controllers/playlistController.ts:58-88 | in a valid store the reply carries every listed song in order |
| PlaylistController.FieldCast | server/controllers/playlistController.ts:117-123 | a missing field is absent; a cast failure is a ValidationError |
| PlaylistController.CreateFailure | server/controllers/playlistController.ts:135-150 | 400 iff the message is a ValidationError, else 500 |
| PlaylistController.ModelFailuresAreBadRequests | server/controllers/playlistController.ts:135-150 | every model or cast failure gives 400 |
| PlaylistController.CreatePlaylistHandler | server/controllers/playlistController.ts:90-155 | 401, then 400 for a falsy name, then 400 for a model failure; success stores under a fresh id a songless playlist of the caller's with the trimmed name and description and both timestamps `now` |
| PlaylistController.UpdatePlaylistHandler | server/controllers/playlistController.ts:157-220 | 401, 400 for a bad id or body, 404 when not the caller's, 500 when the model rejects the update; success stores the old playlist with the validated name and description where given and `updatedAt = now`, and only success changes the store |
| PlaylistController.BlankNameUpdateFails | server/controllers/playlistController.ts:178-202 | a name of spaces passes the schema but fails the model |
| PlaylistController.DeletePlaylistHandler | server/controllers/playlistController.ts:222-271 | 401, 400, then 200 iff the caller owned it, else 404 |
| PlaylistController.AddFailure | server/controllers/playlistController.ts:315-327 | 409 iff "already exists", else 500 |
| PlaylistController.AddFailureStatuses | server/controllers/playlistController.ts:315-327 | a listed song is 409; an unknown song is 500 |
| PlaylistController.AddSongHandler | server/controllers/playlistController.ts:273-333 | 401, 400, unknown song 500, not owned 404, listed 409; success appends and the list stays duplicate-free |
| PlaylistController.RemoveSongHandler | server/controllers/playlistController.ts:335-384 | 401, 400, 404 unless owned; success removes every occurrence |
| SongController.ListSongs | server/controllers/songController.ts:17-41 | for every query, page and limit are `parseInt(x) \|\| default` (1, 20); 200 iff the offset is not negative, with exactly the service's page: the window of the matching songs, newest first, at that offset |
| SongController.GetSongReply | server/controllers/songController.ts:43-80 | 404 iff no song has the id |
| SongController.GetSongBySpotifyIdReply | server/controllers/songController.ts:82-119 | 404 iff no song has the trimmed Spotify id |
| SongController.PopularReply | server/controllers/songController.ts:293-311 | limit is `parseInt(x) \|\| 20`; fails iff it is negative; otherwise 200 with exactly `getPopularSongs`' result, each entry a stored song with a positive count |
| SongController.PopularReplyRanked | server/controllers/songController.ts:293-311 | on a valid store the reply's counts never increase and no song appears twice |
| SongController.CreateFailure | server/controllers/songController.ts:165-181 | 409 iff "duplicate", else 500 |
| SongController.DuplicateKeyIsConflict | server/controllers/songController.ts:165-181 | the unique-index error gives 409 |
| SongController.CreateSongHandler | server/controllers/songController.ts:121-183 | 401, 400; an existing Spotify id gives 200 with no insert; otherwise 201 with exactly one insert, of `MakeSong` of the validated body under a fresh id |
| SongController.UpdateSongHandler | server/controllers/songController.ts:185-244 | 401, 400, 500 when the update validators fail, 404 for an unknown id, 500 when another song holds the new `spotifyId`; otherwise 200 with the stored song carrying the update's fields, its id and `createdAt`, and `updatedAt = now` |
| SongController.DeleteSongHandler | server/controllers/songController.ts:246-291 | 401, 400; the detach always happens; 404 iff the song did not exist |
| AuthService.FindUserByEmail | server/services/authService.ts:49-51 | none iff no user has the e-mail |
| AuthService.FindUserByUsername | server/services/authService.ts:56-58 | none iff no user has the username |
| AuthService.LookupsFindStored | server/models/User.ts:62-63 | by the unique indexes, each lookup finds the stored user |
| AuthService.SaveUser | server/models/User.ts:60-81 | saves iff the validators pass and neither key is taken; the stored password goes through the pre-save hash |
| AuthService.CreateUserAsWritten | server/services/authService.ts:63-85 | saves iff `hash(pw)` passes `required` and neither key is taken; the stored user has password `hash(hash(pw))` and the token names no user, so logging in with `pw` fails |
| AuthService.CreateUser | server/services/authService.ts:63-85 | stores `hash(pw)` and the input fields; logging in with `pw` then returns this user |
| AuthService.AuthenticateUserAsWritten | server/services/authService.ts:90-115 | as written: the same verdict as `AuthenticateUser`, but the token names no user |
| AuthService.AsWrittenTokensIgnoreUser | server/services/authService.ts:76-106 | as written, every session is signed over the same claim, whoever logs in |
| AuthService.AuthenticateUser | server/services/authService.ts:90-115 | a session iff some user has the e-mail and verifies the password; unknown e-mail and wrong password both give `None`; the token names the user |
| AuthService.TokensNameTheirUser | server/services/authService.ts:106 | with an injective `sign`, different users get different tokens |
| AuthService.UpdateUser | server/services/authService.ts:120-132 | never changes the password; unknown id gives `None`; a clashing e-mail or username is an error; otherwise the set fields change |
| AuthService.ChangePassword | server/services/authService.ts:137-168 | unknown user and wrong password are errors that change nothing; otherwise the stored hash becomes `hash(new)` and the new password logs in |
| AuthController.SchemaImpliesRequired | client/shared/schema.ts:4-9 | every registration the schema accepts passes the model's `required` validators |
| AuthController.RegisterHandlerAsWritten | server/controllers/authController.ts:14-71 | the program: 400 before any lookup, e-mail 409 before username 409, a failed save 500, else 201 with the user stored under `hash(hash(pw))` and a token for no user; logging in right after with `pw` is 401 |
| AuthController.RegisteredLoginRefused | server/controllers/authController.ts:77-119 | credentials the service as written refuses get the login's 401 |
| AuthController.LoginReplyAsWritten | server/controllers/authController.ts:77-119 | the program: 400 for a bad body; 200 iff some user with the e-mail verifies the password, with a token signed for no user; otherwise 401 |
| AuthController.RegisterHandler | server/controllers/authController.ts:14-71 | the corrected twin over `AuthService.CreateUser`: the same statuses; the user is stored under `hash(pw)` and the returned session is what logging in returns |
| AuthController.SessionLogsIn | server/controllers/authController.ts:77-119 | over the corrected service, a registration's session is the login reply for its e-mail and password |
| AuthController.LoginReply | server/controllers/authController.ts:77-119 | the corrected twin over `AuthService.AuthenticateUser`: the same statuses, with the token signed for the user's id |
| AuthController.LoginFailuresIndistinguishable | server/controllers/authController.ts:93-101 | an unknown e-mail and a wrong password give the same reply, as written and corrected |
| AuthController.ProfileReply | server/controllers/authController.ts:125-149 | 401 iff no user; otherwise the user unchanged |
| AuthController.ParseProfileChange | server/controllers/authController.ts:168-178 | only an optional `name` of 1–100 and an optional `username` of 3–50 |
| AuthController.UpdateOf | server/controllers/authController.ts:168-189 | a profile change never sets e-mail or password |
| AuthController.ProfileChangePassesValidators | server/controllers/authController.ts:168-189 | a valid change always passes the update validators |
| AuthController.ProfileUpdateFailure | server/controllers/authController.ts:196-207 | 409 iff "duplicate", else 500 |
| AuthController.DuplicateUserKeysAreConflicts | server/controllers/authController.ts:196-207 | both unique-index errors give 409 |
| AuthController.UpdateProfileHandler | server/controllers/authController.ts:155-209 | 401, 400, 409 iff another user holds the username; an unknown id gives 200 with null; otherwise the stored user keeps every field but the given name and username and gets `updatedAt = now`, and the reply is its profile; the password and e-mail are never changed |
| AuthGate.PublicIffPrefixed | server/auth.ts:22-34 | a path is public iff it starts with a listed route |
| AuthGate.SongPathsArePublic | server/auth.ts:22-34 | every path starting with `/songs` is public |
| AuthGate.PlaylistPathsAreGuarded | server/auth.ts:22-34 | no `/playlists` path is public |
| AuthGate.AddTrackIsGuarded | server/auth.ts:22-34 | `/spotify/add-track` is not public |
| AuthGate.TrackNeedsTrailingSlash | server/auth.ts:22-34 | `/spotify/track/` is public, `/spotify/track` is not |
| AuthGate.BearerToken | server/auth.ts:43-55 | a token iff the header starts with "Bearer ", and the header is the prefix followed by it |
| AuthGate.BearerTokenRoundTrip | server/auth.ts:55 | any token behind the prefix comes back unchanged |
| AuthGate.GateAsWritten | server/auth.ts:18-82 | as written: public paths pass; no bearer header is 401; any bearer header attaches no user |
| AuthGate.AsWrittenIgnoresToken | server/auth.ts:58-72 | as written, every token is treated alike and "Invalid or expired token" is never sent |
| AuthGate.Gate | server/auth.ts:18-82 | public paths pass; no bearer header is 401; a rejected token is 401; a verified one attaches its claim |
| AuthGate.GateAttachesOnlyVerifiedUsers | server/auth.ts:58-72 | a user is attached only for a token the verifier accepts, and it is that token's user |
| AuthGate.GateAgreesOnValidTokens | server/auth.ts:58-72 | the corrected gate agrees with the written one exactly on accepted tokens that carry no user |
| Validation.ObjectIdIssues | server/utils/validation.ts:8 | no issue iff exactly 24 hex digits |
| Validation.SpotifyIdIssues | server/utils/validation.ts:47-50 | no issue iff exactly 22 ASCII alphanumerics |
| Validation.ScanFirstLineCorrect | server/utils/validation.ts:34-37 | the scan finds a class character before any line terminator iff one is there |
| Validation.PasswordIssues | server/utils/validation.ts:31-37 | no issue iff 8–128 chars with a lowercase letter, an uppercase letter, a digit and a special character on the first line |
| Validation.DigitAfterLineBreakRejected | server/utils/validation.ts:36 | a digit after a line break does not count |
| Validation.ParseUsername | server/utils/validation.ts:40-44 | accepted iff 3–30 chars of `[A-Za-z0-9_-]`; the result is lowercased |
| Validation.ParseUsernameIdempotent | server/utils/validation.ts:40-44 | parsing a parsed username changes nothing |
| Validation.ParseUsernameIgnoresCase | server/utils/validation.ts:40-44 | usernames differing only in case parse alike |
| Validation.DurationIssues | server/utils/validation.ts:53-56 | no issue iff an integer in [1000, 3600000] |
| Validation.ParsePagination | server/utils/validation.ts:11-14 | page ≥ 1 and limit 1–100, defaults 1 and 20 |
| Validation.ParseSearch | server/utils/validation.ts:17-21 | q 1–200 chars, page ≥ 1, limit 1–50 |
| Validation.SearchPagingIsPagination | server/utils/validation.ts:11-21 | an accepted search carries an accepted pagination |
| Validation.ParseUpdatePlaylistRequest | server/utils/validation.ts:152-162 | an ObjectId, valid optional fields, and at least one field present |
| Validation.EmptyUpdateRequestRejected | server/utils/validation.ts:159-161 | `{}` is rejected here although the shared schema accepts it |
| Validation.UpdateRequestPassesSharedSchema | server/utils/validation.ts:152-162 | every accepted request passes the shared update schema |
| Validation.DropAngles | server/utils/validation.ts:201 | the input filtered by "not `<` or `>`": every other character remains, in order |
| Validation.DropJavascript | server/utils/validation.ts:202 | never longer, only the input's characters, and the first character kept when no match starts there |
| Validation.DropJavascriptDeletes | server/utils/validation.ts:202 | only deletes: the result is a subsequence of the input |
| Validation.WordRun | server/utils/validation.ts:203 | the maximal run of word characters |
| Validation.HandlerAt | server/utils/validation.ts:203 | the length of the `on<word>=` match at the start, 0 iff none |
| Validation.DropHandlers | server/utils/validation.ts:203 | never longer, only the input's characters, and the first character kept when no match starts there |
| Validation.DropHandlersDeletes | server/utils/validation.ts:203 | only deletes: the result is a subsequence of the input |
| Validation.SanitizeInput | server/utils/validation.ts:198-204 | never longer than the input, never `<` or `>`, only the input's characters |
| Validation.SanitizeInputDeletes | server/utils/validation.ts:198-204 | trims, then only deletes: the result is a subsequence of the trimmed input |
| Validation.KeepSearchChars | server/utils/validation.ts:211 | the input filtered by the search class: exactly the word, space, `-`, `_` and `.` characters remain, in order |
| Validation.SanitizeSearchQuery | server/utils/validation.ts:209-213 | at most 200 chars, all search characters from the query |
| Validation.SanitizeSearchQueryDeletes | server/utils/validation.ts:209-213 | trims, then only deletes, the cut to 200 included: the result is a subsequence of the trimmed query |
| Validation.SanitizeKeepsPlainText | server/utils/validation.ts:198-213 | trimmed plain text passes through unchanged, cut to 200 |
| Validation.DropAnglesKeepsPlainText | server/utils/validation.ts:201 | plain text is unchanged |
| Validation.DropJavascriptKeepsPlainText | server/utils/validation.ts:202 | plain text is unchanged |
| Validation.DropHandlersKeepsPlainText | server/utils/validation.ts:203 | plain text is unchanged |
| Validation.KeepSearchCharsKeepsPlainText | server/utils/validation.ts:211 | plain text is unchanged |
| ErrorHandler.Fallback | server/routes.ts:46-87 | unmatched: 404 with path and method; ValidationError 400; MongoError 11000 409; CastError 400; otherwise the error's status or 500 and its message or a default, with the stack only in development |
| ErrorHandler.StackOnlyInDevelopment | server/routes.ts:85 | outside development no stack is sent |
| ErrorHandler.ClassifiedIgnoresOwnStatus | server/routes.ts:67-80 | for the named kinds, the error's own status and message do not matter |
| ErrorHandler.RepliesAreErrors | server/routes.ts:56-87 | every reply status is 4xx or 5xx when the error brings no status of its own or an error status |

## Left out

- Database I/O, `populate` of owners and field selection (`select`), `toJSON` transforms: replies carry whole stored records.
- MongoDB `$regex` search is modelled as an ASCII case-insensitive substring match; the user's text is not interpreted as a regular expression.
- Concurrency: every operation is one atomic step on a single-threaded store. The check-then-insert races of `createSong`, `addSongToPlaylist` and `getAccessToken` are not modelled.
- bcrypt and JSON Web Tokens are uninterpreted functions. No sign/verify round trip is claimed. The JWT secrets differ between `server/services/authService.ts:15` and `:175`, `server/auth.ts:92` and `server/middleware/auth.ts:83`; the middleware is not part of this model.
- `req.user` shapes: the handlers take the caller's id (or whether one is signed in) as a parameter. The `userid`/`userId`/`_id` spelling mismatches between the middleware and the handlers are not modelled.
- Spotify HTTP, JSON, `encodeURIComponent` and URL text: the token exchange and responses are parameters, and `encode` is an uninterpreted function. The float recommendation targets are modelled only as present or absent text.
- `Date.now()`: a natural-number `now` parameter.
- PlaylistService.GetPlaylistStats: computed over the populated songs, so a dangling id counts nothing; in a valid store there is none (`StatsOfValidStore`).
- PlaylistService.searchPublicPlaylists and getPopularPlaylists, SongService.getRecentSongs, getSongsByArtist and getSongsByAlbum: read-only queries with no route; not part of this model.
- The Spotify service's remaining catalog reads (artists, albums, browse, genre seeds, audio features) are modelled only through the shared `SpotifyService.Fetch` and their endpoint functions.
- AuthService.verifyToken, getUserById, deleteUser, getUserStats, and AuthController.logout: token verification is a parameter of `AuthGate.Gate`; the others are outside the modelled operations.
- `server/routes/authRoutes.ts` binds an undefined `getUser`; route wiring is not part of this model.
- The `validateSchema` middleware and the `emailSchema`, `urlSchema` and name schemas of `server/utils/validation.ts`: the request parsing the handlers rely on is modelled by `Schema`.
- The CORS, database-connect and server-creation parts of `server/routes.ts`.
- The unique-index check order on users (e-mail before username) is an assumption of `AuthService.SaveUser`; MongoDB does not document it.
- AuthController.RegisterHandler: the 500 of its catch block answers only a database failure, which the in-memory store never has. In the as-written twin it also answers a save that `required` refuses.
- Ids are natural numbers, not ObjectId strings. A malformed id such as `GET /api/songs/abc` makes Mongoose throw a CastError, which the song and playlist handlers answer with their catch block's 500 (for instance `server/controllers/songController.ts:55` and `:69-75`); the model's handlers only see well-formed ids and answer 200 or 404.
- Because ids are numbers, two spellings of one ObjectId (upper- and lower-case hex) are not distinguished: the `includes` duplicate check of `addSongToPlaylist` compares ids as the model does, not as the program compares a differently-cased string.
- JSON numbers are integers: a fractional `duration` such as `1500.5`, which `z.number()` and the Mongoose `Number` path accept, has no counterpart.
- String lengths are counted in characters, whereas zod and Mongoose count UTF-16 code units: text with characters outside the Basic Multilingual Plane can pass a `max(…)` in the model that it fails in the program.
- AuthService.AuthenticateUser: the session's user record includes the stored hash, because the user schema has no `toJSON` transform.
- Paging.Paginate: a limit of 0 is excluded by `requires`, because every caller substitutes 20 for it.
- AuthService.AsWrittenTokensIgnoreUser: `sign` is a function of the claim alone; `jwt.sign` also writes the issue and expiry times (`server/services/authService.ts:41-42`), so the tokens agree in their claim, not byte for byte.
- UserModel.SavedPasswordMatches: bcrypt is idealised by `BcryptLike`, which verifies exactly the text that was hashed; real bcrypt reads only a password's first 72 bytes, so two passwords that share those bytes verify alike.
- PlaylistController.GetPlaylistReply: the handler does not return after writing its 401 or 404 (`server/controllers/playlistController.ts:63-75`). The next write then throws ERR_HTTP_HEADERS_SENT, the catch block's 500 write throws again, and the rejection escapes the handler; without a user, reading `req.user.userid` throws first. The model keeps only the first status written.
- Http.Reply: a failure carries its status and error text only. The `details` the handlers add are not modelled: the zod issues (`server/controllers/playlistController.ts:184`, `server/controllers/songController.ts:138`, `server/controllers/authController.ts:24`) and the Mongoose message (`server/controllers/playlistController.ts:143`).
- The failed paths of a `ValidationError` are listed in the schema's path order; Mongoose lists them in the order the paths were set. Substring tests on the message do not depend on the order.
- Sorting ties: MongoDB `$sort` leaves the order of documents with equal keys unspecified; the model keeps insertion order among equal keys (`PlaylistService.NewestFirst`, `SongService.NewestFirst`, `SongService.ByName`, `SongService.MostReferencedFirst`), which the program does not promise.

## Findings

| source | as written | input that shows it | evidently intended | confidence | as-written member | corrected member |
|---|---|---|---|---|---|---|
| server/services/spotifyService.ts:44-47 | `getTrack` replaces every error with "Failed to get track from Spotify", so the handlers' `includes('404')` tests can never hold | a track id the catalog answers 404 for: `getTrackDetails` replies 500 | a missing track answers 404 | high, not executed | SpotifyController.TrackDetailsHandlerAsWritten | SpotifyController.TrackDetailsHandler |
| server/services/authService.ts:65-73 | `createUser` hashes the password, then the pre-save hook hashes the hash again | register with any password `pw` for which `hash(pw) != pw`, then log in with `pw`: 401 | the stored password is `hash(pw)` and login succeeds | high, not executed | AuthService.CreateUserAsWritten | AuthService.CreateUser |
| server/controllers/spotifyController.ts:171-186 | `addTrackToDatabase` tests the fetch error for "404", but `getTrack` always rethrows a fixed message | a Spotify id that is not stored and that the catalog answers 404 for: 500 "Failed to add song to database" | a missing track answers 404 | high, not executed | SpotifyController.AddTrackToDatabaseAsWritten | SpotifyController.AddTrackToDatabase |
| server/controllers/authController.ts:14-71 | `register` stores the password through the double-hashing `createUser` and hands out a token for no user | register with `pw` for which `hash(pw) != pw`, then log in with `pw`: 401 | the registered password logs in and the token names the new user | high, not executed | AuthController.RegisterHandlerAsWritten | AuthController.RegisterHandler |
| server/controllers/authController.ts:77-119 | `login` returns the token `authenticateUser` signs over `user.userid` | any successful login: the token's claim is undefined | the token names the user who logged in | high, not executed | AuthController.LoginReplyAsWritten | AuthController.LoginReply |
| server/services/authService.ts:76 | the token is signed over `user.userid`, which the document does not have, so it names no user | any two users logging in get tokens with the same (empty) claim | the token names the user's id | high, not executed | AuthService.AuthenticateUserAsWritten | AuthService.AuthenticateUser |
| server/auth.ts:59 | the asynchronous `verifyToken` is not awaited, so `decoded` is a pending promise: truthy, with no `userId` | `Authorization: Bearer x` on `/api/playlists`: passes, with no user attached | an invalid token answers 401 and a valid one attaches its user | high, not executed | AuthGate.GateAsWritten | AuthGate.Gate |
