/**
 * The song handlers of `/api/songs`. The reads are public; creating,
 * updating and deleting need a signed-in caller (`signedIn`: a user is
 * attached to the request). Each handler maps the song service's outcome to
 * a status.
 */
module SongController {
  import opened Wrappers
  import opened Schema
  import opened Paging
  import opened Http
  import Text
  import SongModel
  import SongService
  import opened Store

  const AuthenticationRequired := "Authentication required"
  const SongIdRequired := "Song ID is required"
  const SpotifyIdRequired := "Spotify ID is required"
  const SongNotFound := "Song not found"
  const InvalidInput := "Invalid input data"
  const ListFailed := "Failed to fetch songs"
  const DuplicateSong := "Song with this Spotify ID already exists"
  const CreateFailed := "Failed to create song"
  const UpdateFailed := "Failed to update song"
  const PopularFailed := "Failed to fetch popular songs"

  const AlreadyExists := "Song already exists"
  const Created := "Song created successfully"
  const Updated := "Song updated successfully"
  const Deleted := "Song deleted successfully"

  const DefaultPage := 1
  const DefaultLimit := 20

  // ----- reads --------------------------------------------------------------------

  /** `GET /api/songs`: `page` and `limit` fall back to 1 and 20 when they do not parse or parse to 0. */
  function ListSongs(db: Db, page: Option<string>, limit: Option<string>, search: Option<string>): (r: Reply<Page<Song>>)
    requires db.IdsIssued()
    reads db
    ensures r.Failure? ==> r == Failure(500, ListFailed)
    ensures r.Success? ==> r.status == 200 && r.data.limit != 0 && |r.data.data| <= Abs(r.data.limit)
    ensures r.Success? ==> forall s :: s in r.data.data ==> s in db.songs.Values && SongService.MatchesSearch(s, search)
    ensures r.Success? ==> forall i :: 0 < i < |r.data.data| ==> r.data.data[i - 1].createdAt >= r.data.data[i].createdAt
    ensures QueryInt(page).None? && QueryInt(limit).None? ==>
      r.Success? && r.data.page == DefaultPage && r.data.limit == DefaultLimit
    ensures
      var p := OrDefault(QueryInt(page), DefaultPage);
      var l := OrDefault(QueryInt(limit), DefaultLimit);
      && (r.Success? <==> Offset(p, l) >= 0)
      && (r.Success? ==> r.data == SongService.GetSongs(db, p, l, search).value)
      && (r.Success? ==>
            r.data.data == Window(SongService.Query(db, SongService.SearchFilter(search), SongService.NewestFirst()), Offset(p, l), Abs(l)))
  {
    var p := OrDefault(QueryInt(page), DefaultPage);
    var l := OrDefault(QueryInt(limit), DefaultLimit);
    var listed := SongService.GetSongs(db, p, l, search);
    if listed.Err? then Failure(500, ListFailed)
    else
      Success(200, listed.value, None)
  }

  /** `GET /api/songs/:id`: 404 exactly when no song has that id. */
  function GetSongReply(db: Db, songId: Option<Id>): (r: Reply<Song>)
    requires db.IdsIssued()
    reads db
    ensures songId.None? ==> r == Failure(400, SongIdRequired)
    ensures songId.Some? ==> (r.Success? <==> songId.value in db.songs)
    ensures songId.Some? && r.Failure? ==> r == Failure(404, SongNotFound)
    ensures r.Success? ==> r.status == 200 && r.data == db.songs[songId.value] && r.data.id == songId.value
  {
    if songId.None? then Failure(400, SongIdRequired)
    else
      match SongService.GetSongById(db, songId.value)
      case None => Failure(404, SongNotFound)
      case Some(s) => Success(200, s, None)
  }

  /** `GET /api/songs/spotify/:spotifyId`: 404 exactly when no stored song has the trimmed id. */
  function GetSongBySpotifyIdReply(db: Db, spotifyId: Option<string>): (r: Reply<Song>)
    requires db.IdsIssued()
    reads db
    ensures Falsy(spotifyId) ==> r == Failure(400, SpotifyIdRequired)
    ensures !Falsy(spotifyId) ==>
      (r.Success? <==> exists s :: s in db.songs.Values && s.spotifyId == Text.Trim(spotifyId.value))
    ensures !Falsy(spotifyId) && r.Failure? ==> r == Failure(404, SongNotFound)
    ensures r.Success? ==> r.status == 200 && r.data in db.songs.Values && r.data.spotifyId == Text.Trim(spotifyId.value)
  {
    if Falsy(spotifyId) then Failure(400, SpotifyIdRequired)
    else
      match SongService.GetSongBySpotifyId(db, spotifyId.value)
      case None => Failure(404, SongNotFound)
      case Some(s) => Success(200, s, None)
  }

  /** `GET /api/songs/popular`: `limit` falls back to 20 when it does not parse or parses to 0. */
  function PopularReply(db: Db, limit: Option<string>): (r: Reply<seq<SongService.PopularSong>>)
    requires db.IdsIssued()
    reads db
    ensures r.Failure? <==> OrDefault(QueryInt(limit), DefaultLimit) < 0
    ensures r.Failure? ==> r == Failure(500, PopularFailed)
    ensures r.Success? ==> r.status == 200 && |r.data| <= OrDefault(QueryInt(limit), DefaultLimit)
    ensures r.Success? ==> r.data == SongService.GetPopularSongs(db, OrDefault(QueryInt(limit), DefaultLimit)).value
    ensures r.Success? ==> forall e :: e in r.data ==> e.song.id in db.songs && e.playlistCount > 0
    ensures QueryInt(limit).None? ==> r.Success? && |r.data| <= DefaultLimit
  {
    var l := OrDefault(QueryInt(limit), DefaultLimit);
    match SongService.GetPopularSongs(db, l)
    case Err(_) => Failure(500, PopularFailed)
    case Ok(songs) => Success(200, songs, None)
  }

  /** On a valid store the popular reply is ranked: counts never increase and no song appears twice. */
  lemma PopularReplyRanked(db: Db, limit: Option<string>)
    requires db.Valid()
    ensures var r := PopularReply(db, limit);
      r.Success? ==>
        && (forall i, j :: 0 <= i < j < |r.data| ==> r.data[i].playlistCount >= r.data[j].playlistCount)
        && (forall i, j :: 0 <= i < j < |r.data| ==> r.data[i].song.id != r.data[j].song.id)
  {
    var l := OrDefault(QueryInt(limit), DefaultLimit);
    if l > 0 {
      SongService.PopularSongsRanked(db, l);
    }
  }

  // ----- writes -------------------------------------------------------------------

  /** The error `createSong` reports: only a "duplicate" message is a conflict. */
  function CreateFailure(message: string): (r: Reply<Song>)
    ensures r.Failure?
    ensures r.status == 409 <==> Text.Contains(message, "duplicate")
    ensures r.status == 409 ==> r.error == DuplicateSong
    ensures r.status != 409 ==> r == Failure(500, CreateFailed)
  {
    if Text.Contains(message, "duplicate") then Failure(409, DuplicateSong)
    else Failure(500, CreateFailed)
  }

  /** The unique-index error of the songs collection is reported as a conflict. */
  lemma DuplicateKeyIsConflict()
    ensures CreateFailure(SongModel.DuplicateKey) == Failure(409, DuplicateSong)
  {
  }

  /**
   * `POST /api/songs`: the body must pass the song schema; a song already
   * stored under its Spotify id is returned with 200 and nothing is stored;
   * otherwise the song is created, or the model's error is reported.
   */
  method CreateSongHandler(db: Db, signedIn: bool, body: Body, now: nat) returns (reply: Reply<Song>)
    requires db.Valid()
    modifies db
    ensures db.Valid()
    ensures db.users == old(db.users) && db.playlists == old(db.playlists)
    ensures !reply.Success? || reply.status == 200 ==> db.songs == old(db.songs) && db.nextId == old(db.nextId)
    ensures !signedIn ==> reply == Failure(401, AuthenticationRequired)
    ensures signedIn && ParseInsertSong(body).None? ==> reply == Failure(400, InvalidInput)
    ensures signedIn && ParseInsertSong(body).Some? ==>
      var data := ParseInsertSong(body).value;
      var existing := old(SongService.GetSongBySpotifyId(db, data.spotifyId));
      && (existing.Some? ==> reply == Success(200, existing.value, Some(AlreadyExists)))
      && (existing.None? && SongModel.Validate(data).Err? ==> reply == CreateFailure(SongModel.Validate(data).message))
      && (existing.None? && SongModel.Validate(data).Ok? ==>
            && reply.Success? && reply.status == 201 && reply.message == Some(Created)
            && reply.data == SongModel.MakeSong(old(db.nextId), SongModel.Validate(data).value, now)
            && reply.data.id !in old(db.songs) && db.songs == old(db.songs)[reply.data.id := reply.data]
            && SongService.GetSongBySpotifyId(db, data.spotifyId) == Some(reply.data))
  {
    if !signedIn {
      return Failure(401, AuthenticationRequired);
    }
    var data := ParseInsertSong(body);
    if data.None? {
      return Failure(400, InvalidInput);
    }
    ValidIdsIssued(db);
    var existing := SongService.GetSongBySpotifyId(db, data.value.spotifyId);
    if existing.Some? {
      return Success(200, existing.value, Some(AlreadyExists));
    }
    var created := SongService.CreateSong(db, data.value, now);
    if created.Err? {
      return CreateFailure(created.message);
    }
    reply := Success(201, created.value, Some(Created));
  }

  /**
   * `PUT /api/songs/:id`: the body must pass the partial song schema; an
   * unknown id is a 404, and every error of the service, a clash on the
   * unique Spotify id included, is a 500.
   */
  method UpdateSongHandler(db: Db, signedIn: bool, songId: Option<Id>, body: Body, now: nat) returns (reply: Reply<Song>)
    requires db.Valid()
    modifies db
    ensures db.Valid()
    ensures db.users == old(db.users) && db.playlists == old(db.playlists) && db.nextId == old(db.nextId)
    ensures reply.Failure? ==> db.songs == old(db.songs)
    ensures !signedIn ==> reply == Failure(401, AuthenticationRequired)
    ensures signedIn && songId.None? ==> reply == Failure(400, SongIdRequired)
    ensures signedIn && songId.Some? && ParseSongUpdate(body).None? ==> reply == Failure(400, InvalidInput)
    ensures signedIn && songId.Some? && ParseSongUpdate(body).Some? ==>
      var u := ParseSongUpdate(body).value;
      && (SongModel.ValidateUpdate(u).Err? ==> reply == Failure(500, UpdateFailed))
      && (SongModel.ValidateUpdate(u).Ok? && songId.value !in old(db.songs) ==> reply == Failure(404, SongNotFound))
      && (SongModel.ValidateUpdate(u).Ok? && songId.value in old(db.songs) ==>
            var v := SongModel.ValidateUpdate(u).value;
            var s := old(db.songs[songId.value]);
            if v.spotifyId.Some? && SongService.Clashes(old(db.songs), songId.value, v.spotifyId.value) then
              reply == Failure(500, UpdateFailed)
            else
              reply == Success(200, SongService.WithFields(s, SongModel.ApplyUpdate(SongModel.FieldsOf(s), v), now), Some(Updated)))
    ensures reply.Success? ==>
      && reply.status == 200 && reply.message == Some(Updated)
      && songId.value in old(db.songs) && reply.data.id == songId.value
      && db.songs == old(db.songs)[songId.value := reply.data]
  {
    if !signedIn {
      return Failure(401, AuthenticationRequired);
    }
    if songId.None? {
      return Failure(400, SongIdRequired);
    }
    var u := ParseSongUpdate(body);
    if u.None? {
      return Failure(400, InvalidInput);
    }
    var updated := SongService.UpdateSong(db, songId.value, u.value, now);
    if updated.Err? {
      return Failure(500, UpdateFailed);
    }
    if updated.value.None? {
      return Failure(404, SongNotFound);
    }
    reply := Success(200, updated.value.value, Some(Updated));
  }

  /**
   * `DELETE /api/songs/:id`: the song is detached from every playlist, then
   * deleted; the reply is 404 when no song had that id, after the detach.
   */
  method DeleteSongHandler(db: Db, signedIn: bool, songId: Option<Id>, now: nat) returns (reply: Reply<()>)
    requires db.Valid()
    modifies db
    ensures db.Valid()
    ensures db.users == old(db.users) && db.nextId == old(db.nextId)
    ensures !signedIn || songId.None? ==> db.songs == old(db.songs) && db.playlists == old(db.playlists)
    ensures !signedIn ==> reply == Failure(401, AuthenticationRequired)
    ensures signedIn && songId.None? ==> reply == Failure(400, SongIdRequired)
    ensures signedIn && songId.Some? ==>
      && (reply.Success? <==> songId.value in old(db.songs))
      && (reply.Success? ==> reply == Success(200, (), Some(Deleted)))
      && (reply.Failure? ==> reply == Failure(404, SongNotFound))
      && songId.value !in db.songs && db.songs == old(db.songs) - {songId.value}
      && db.playlists == SongService.DetachAll(old(db.playlists), songId.value, now)
  {
    if !signedIn {
      return Failure(401, AuthenticationRequired);
    }
    if songId.None? {
      return Failure(400, SongIdRequired);
    }
    var deleted := SongService.DeleteSong(db, songId.value, now);
    if !deleted {
      return Failure(404, SongNotFound);
    }
    reply := Success(200, (), Some(Deleted));
  }
}
