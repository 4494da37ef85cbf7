/**
 * The playlist handlers of `/api/playlists`: each checks for a signed-in
 * caller, then for the ids it needs, then calls the playlist service and
 * maps its outcome to a status. `user` is the caller's id as the handlers
 * read it from `req.user`, absent when no user is attached to the request.
 */
module PlaylistController {
  import opened Wrappers
  import opened Schema
  import opened Paging
  import opened Http
  import Text
  import Collection
  import PlaylistModel
  import PlaylistService
  import opened Store

  const AuthenticationRequired := "Authentication required"
  const NameRequired := "Playlist name is required"
  const InvalidPlaylistData := "Invalid playlist data"
  const CreateFailed := "Failed to create playlist"
  const InvalidInput := "Invalid input data"
  const IdRequired := "Playlist ID is required"
  const IdsRequired := "Playlist ID and song ID are required"
  const NotFound := "Playlist not found"
  const NotFoundForUpdate := "Playlist not found or you do not have permission to update it"
  const NotFoundForDelete := "Playlist not found or you do not have permission to delete it"
  const NotFoundForModify := "Playlist not found or you do not have permission to modify it"
  const ListFailed := "Failed to fetch playlists"
  const UpdateFailed := "Failed to update playlist"
  const AlreadyInPlaylist := "Song is already in the playlist"
  const AddFailed := "Failed to add song to playlist"

  const Created := "Playlist created successfully"
  const Updated := "Playlist updated successfully"
  const Deleted := "Playlist deleted successfully"
  const SongAdded := "Song added to playlist successfully"
  const SongRemoved := "Song removed from playlist successfully"

  const DefaultPage := 1
  const DefaultLimit := 20

  /** Written ahead of the mutating handlers: a failure leaves every collection as it was. */
  twostate predicate Untouched(db: Db)
    reads db
  {
    && db.users == old(db.users) && db.songs == old(db.songs)
    && db.playlists == old(db.playlists) && db.nextId == old(db.nextId)
  }

  // ----- getUserPlaylists -------------------------------------------------------

  /**
   * `GET /api/playlists`: `page` and `limit` fall back to 1 and 20 when they
   * do not parse or parse to 0; the listing is the caller's own playlists.
   */
  function ListPlaylists(db: Db, user: Option<Id>, page: Option<string>, limit: Option<string>, search: Option<string>)
    : (r: Reply<Page<Playlist>>)
    requires db.IdsIssued()
    reads db
    ensures user.None? ==> r == Failure(401, AuthenticationRequired)
    ensures r.Failure? && user.Some? ==> r == Failure(500, ListFailed)
    ensures r.Success? ==> r.status == 200 && user.Some?
    ensures r.Success? ==> r.data.limit != 0 && |r.data.data| <= Abs(r.data.limit)
    ensures r.Success? ==> forall p :: p in r.data.data ==> p in db.playlists.Values && p.owner == user.value
    ensures r.Success? ==> r.data.total == |PlaylistService.MatchingIds(db, user.value, search)|
    ensures user.Some? && QueryInt(page).None? && QueryInt(limit).None? ==>
      r.Success? && r.data.page == DefaultPage && r.data.limit == DefaultLimit
    ensures user.Some? ==>
      var p := OrDefault(QueryInt(page), DefaultPage);
      var l := OrDefault(QueryInt(limit), DefaultLimit);
      && (r.Success? <==> Offset(p, l) >= 0)
      && (r.Success? ==> r.data == PlaylistService.GetUserPlaylists(db, user.value, p, l, search).value)
      && (r.Success? ==> r.data.data == Window(PlaylistService.UserMatches(db, user.value, search), Offset(p, l), Abs(l)))
  {
    if user.None? then Failure(401, AuthenticationRequired)
    else
      var p := OrDefault(QueryInt(page), DefaultPage);
      var l := OrDefault(QueryInt(limit), DefaultLimit);
      var listed := PlaylistService.GetUserPlaylists(db, user.value, p, l, search);
      if listed.Err? then Failure(500, ListFailed)
      else
        var all := PlaylistService.UserMatches(db, user.value, search);
        assert listed.value == Paginate(all, p, l).value;
        Success(200, listed.value, None)
  }

  /** A page given as a printed positive number is the page listed, with the default size. */
  lemma ListPageFromQuery(db: Db, user: Id, page: nat, search: Option<string>)
    requires db.IdsIssued()
    requires page >= 1
    ensures var r := ListPlaylists(db, Some(user), Some(Text.IntToString(page)), None, search);
      && r.Success? && r.data.page == page && r.data.limit == DefaultLimit
      && r.data.totalPages == CeilDiv(r.data.total, DefaultLimit)
  {
    QueryIntPrinted(page);
    var all := PlaylistService.UserMatches(db, user, search);
    assert PlaylistService.GetUserPlaylists(db, user, page, DefaultLimit, search) == Paginate(all, page, DefaultLimit);
  }

  // ----- getPlaylistById ----------------------------------------------------------

  /** A playlist with its song references replaced by the stored songs. */
  datatype Populated = Populated(playlist: Playlist, songs: seq<Song>)

  /**
   * `GET /api/playlists/:id`. The handler does not return after writing its
   * 401 or 404, so the later writes fail; the first status written is the
   * one the client receives, and that is the reply modelled here.
   */
  function GetPlaylistReply(db: Db, user: Option<Id>, playlistId: Id): (r: Reply<Populated>)
    reads db
    ensures user.None? ==> r == Failure(401, AuthenticationRequired)
    ensures user.Some? ==> (r.Success? <==> PlaylistService.GetPlaylistById(db, playlistId, user.value).Some?)
    ensures user.Some? && r.Failure? ==> r == Failure(404, NotFound)
    ensures r.Success? ==>
      && r.status == 200 && r.data.playlist == db.playlists[playlistId]
      && r.data.playlist.owner == user.value
  {
    if user.None? then Failure(401, AuthenticationRequired)
    else
      match PlaylistService.GetPlaylistById(db, playlistId, user.value)
      case None => Failure(404, NotFound)
      case Some(p) => Success(200, Populated(p, PlaylistService.Populate(db.songs, p.songs)), None)
  }

  /** In a valid store the reply carries every listed song, in the playlist's order. */
  lemma GetPlaylistPopulatesAll(db: Db, user: Id, playlistId: Id)
    requires db.Valid()
    requires GetPlaylistReply(db, Some(user), playlistId).Success?
    ensures var d := GetPlaylistReply(db, Some(user), playlistId).data;
      && |d.songs| == |d.playlist.songs|
      && forall i :: 0 <= i < |d.songs| ==> d.songs[i].id == d.playlist.songs[i]
  {
    ValidIdsIssued(db);
    var p := db.playlists[playlistId];
    assert forall s :: s in p.songs ==> s in db.songs;
  }

  // ----- createPlaylist -----------------------------------------------------------

  /** The cast of an optional body field to a string path: a missing field is no value. */
  function FieldCast(body: Body, key: string): (r: Result<Option<string>>)
    ensures key !in body ==> r == Ok(None)
    ensures key in body ==> r == PlaylistModel.CastString(body[key])
    ensures r.Err? ==> Text.StartsWith(r.message, PlaylistModel.ValidationFailed)
  {
    if key in body then PlaylistModel.CastString(body[key]) else Ok(None)
  }

  /** The error `createPlaylist` reports: a model validation failure is the client's fault. */
  function CreateFailure(message: string): (r: Reply<Playlist>)
    ensures r.Failure?
    ensures r.status == 400 <==> Text.Contains(message, PlaylistModel.ValidationFailed)
    ensures r.status == 400 ==> r.error == InvalidPlaylistData
    ensures r.status != 400 ==> r == Failure(500, CreateFailed)
  {
    if Text.Contains(message, PlaylistModel.ValidationFailed) then Failure(400, InvalidPlaylistData)
    else Failure(500, CreateFailed)
  }

  /** Every message the playlist model raises, a cast failure included, is reported as 400. */
  lemma ModelFailuresAreBadRequests(name: Option<string>, description: Option<string>, owner: Option<Id>, body: Body, key: string)
    ensures PlaylistModel.Validate(name, description, owner).Err? ==>
      CreateFailure(PlaylistModel.Validate(name, description, owner).message) == Failure(400, InvalidPlaylistData)
    ensures FieldCast(body, key).Err? ==>
      CreateFailure(FieldCast(body, key).message) == Failure(400, InvalidPlaylistData)
  {
    var v := PlaylistModel.Validate(name, description, owner);
    if v.Err? {
      Text.StartsWithContains(v.message, PlaylistModel.ValidationFailed);
    }
    var c := FieldCast(body, key);
    if c.Err? {
      Text.StartsWithContains(c.message, PlaylistModel.ValidationFailed);
    }
  }

  /** What `new PlaylistModel({name, description, owner})` validates, when the casts succeed. */
  predicate Accepted(body: Body, owner: Id) {
    && FieldCast(body, "name").Ok? && FieldCast(body, "description").Ok?
    && PlaylistModel.Validate(FieldCast(body, "name").value, FieldCast(body, "description").value, Some(owner)).Ok?
  }

  /**
   * `POST /api/playlists`: a truthy `name` is required; the playlist is
   * stored with no songs and the caller as owner, and any model validation
   * failure, a field that does not cast included, is a 400.
   */
  method CreatePlaylistHandler(db: Db, user: Option<Id>, body: Body, now: nat) returns (reply: Reply<Playlist>)
    requires db.Valid()
    modifies db
    ensures db.Valid()
    ensures db.users == old(db.users) && db.songs == old(db.songs)
    ensures reply.Failure? ==> Untouched(db)
    ensures user.None? ==> reply == Failure(401, AuthenticationRequired)
    ensures user.Some? && !Present(body, "name") ==> reply == Failure(400, NameRequired)
    ensures user.Some? && Present(body, "name") && !Accepted(body, user.value) ==> reply == Failure(400, InvalidPlaylistData)
    ensures reply.Success? <==> user.Some? && Present(body, "name") && Accepted(body, user.value)
    ensures reply.Success? ==>
      && reply.status == 201 && reply.message == Some(Created)
      && reply.data.owner == user.value && reply.data.songs == []
      && reply.data.name == Text.Trim(FieldCast(body, "name").value.value)
      && reply.data.description == PlaylistModel.TrimOption(FieldCast(body, "description").value)
      && reply.data.id == old(db.nextId) && reply.data.createdAt == now && reply.data.updatedAt == now
      && reply.data.id !in old(db.playlists) && db.playlists == old(db.playlists)[reply.data.id := reply.data]
  {
    if user.None? {
      return Failure(401, AuthenticationRequired);
    }
    if !Present(body, "name") {
      return Failure(400, NameRequired);
    }
    var name := FieldCast(body, "name");
    var description := FieldCast(body, "description");
    if name.Err? {
      ModelFailuresAreBadRequests(None, None, None, body, "name");
      return CreateFailure(name.message);
    }
    if description.Err? {
      ModelFailuresAreBadRequests(None, None, None, body, "description");
      return CreateFailure(description.message);
    }
    var saved := PlaylistService.SavePlaylist(db, name.value, description.value, user, [], now);
    if saved.Err? {
      ModelFailuresAreBadRequests(name.value, description.value, user, body, "name");
      return CreateFailure(saved.message);
    }
    reply := Success(201, saved.value, Some(Created));
  }

  // ----- updatePlaylist -----------------------------------------------------------

  /**
   * `PUT /api/playlists/:id`: the body must pass the update schema; the
   * playlist changes only when the caller owns it. A name the schema admits
   * but the model's trimming leaves empty fails in the service, which the
   * handler reports as 500.
   */
  method UpdatePlaylistHandler(db: Db, user: Option<Id>, playlistId: Option<Id>, body: Body, now: nat)
    returns (reply: Reply<Playlist>)
    requires db.Valid()
    modifies db
    ensures db.Valid()
    ensures db.users == old(db.users) && db.songs == old(db.songs) && db.nextId == old(db.nextId)
    ensures reply.Failure? ==> Untouched(db)
    ensures user.None? ==> reply == Failure(401, AuthenticationRequired)
    ensures user.Some? && playlistId.None? ==> reply == Failure(400, IdRequired)
    ensures user.Some? && playlistId.Some? && ParseUpdatePlaylist(body).None? ==> reply == Failure(400, InvalidInput)
    ensures user.Some? && playlistId.Some? && ParseUpdatePlaylist(body).Some? ==>
      var data := ParseUpdatePlaylist(body).value;
      && (PlaylistModel.ValidateUpdate(data.name, data.description).Err? ==> reply == Failure(500, UpdateFailed))
      && (PlaylistModel.ValidateUpdate(data.name, data.description).Ok? ==>
            && (old(PlaylistService.GetPlaylistById(db, playlistId.value, user.value)).None? ==>
                  reply == Failure(404, NotFoundForUpdate))
            && (old(PlaylistService.GetPlaylistById(db, playlistId.value, user.value)).Some? ==> reply.Success?))
    ensures reply.Success? ==>
      && reply.status == 200 && reply.message == Some(Updated)
      && reply.data.id == playlistId.value && reply.data.owner == user.value
      && reply.data.songs == old(db.playlists[playlistId.value].songs)
      && db.playlists == old(db.playlists)[playlistId.value := reply.data]
    ensures reply.Success? ==>
      var data := ParseUpdatePlaylist(body).value;
      var (n, d) := PlaylistModel.ValidateUpdate(data.name, data.description).value;
      var q := old(db.playlists[playlistId.value]);
      reply.data == q.(name := if n.Some? then n.value else q.name, description := if d.Some? then d else q.description, updatedAt := now)
  {
    if user.None? {
      return Failure(401, AuthenticationRequired);
    }
    if playlistId.None? {
      return Failure(400, IdRequired);
    }
    var data := ParseUpdatePlaylist(body);
    if data.None? {
      return Failure(400, InvalidInput);
    }
    var updated := PlaylistService.UpdatePlaylist(db, playlistId.value, user.value, data.value, now);
    if updated.Err? {
      return Failure(500, UpdateFailed);
    }
    if updated.value.None? {
      return Failure(404, NotFoundForUpdate);
    }
    reply := Success(200, updated.value.value, Some(Updated));
  }

  /** A name of spaces passes the update schema but not the model, and the handler answers 500 for it. */
  lemma BlankNameUpdateFails(name: string)
    requires 1 <= |name| <= 100 && Text.Trim(name) == ""
    ensures var data := ParseUpdatePlaylist(map["name" := JString(name)]);
      && data == Some(UpdatePlaylist(Some(name), None))
      && PlaylistModel.ValidateUpdate(data.value.name, data.value.description).Err?
  {
  }

  // ----- deletePlaylist -----------------------------------------------------------

  /** `DELETE /api/playlists/:id`: removes the playlist iff the caller owns it. */
  method DeletePlaylistHandler(db: Db, user: Option<Id>, playlistId: Option<Id>) returns (reply: Reply<()>)
    requires db.Valid()
    modifies db
    ensures db.Valid()
    ensures db.users == old(db.users) && db.songs == old(db.songs) && db.nextId == old(db.nextId)
    ensures reply.Failure? ==> Untouched(db)
    ensures user.None? ==> reply == Failure(401, AuthenticationRequired)
    ensures user.Some? && playlistId.None? ==> reply == Failure(400, IdRequired)
    ensures user.Some? && playlistId.Some? ==>
      (reply.Success? <==> old(PlaylistService.GetPlaylistById(db, playlistId.value, user.value)).Some?)
    ensures user.Some? && playlistId.Some? && reply.Failure? ==> reply == Failure(404, NotFoundForDelete)
    ensures reply.Success? ==>
      && reply == Success(200, (), Some(Deleted))
      && db.playlists == old(db.playlists) - {playlistId.value}
  {
    if user.None? {
      return Failure(401, AuthenticationRequired);
    }
    if playlistId.None? {
      return Failure(400, IdRequired);
    }
    var deleted := PlaylistService.DeletePlaylist(db, playlistId.value, user.value);
    if !deleted {
      return Failure(404, NotFoundForDelete);
    }
    reply := Success(200, (), Some(Deleted));
  }

  // ----- addSongToPlaylist / removeSongFromPlaylist -----------------------------------

  /** The error `addSongToPlaylist` reports: only an "already exists" message is a conflict. */
  function AddFailure(message: string): (r: Reply<Playlist>)
    ensures r.Failure?
    ensures r.status == 409 <==> Text.Contains(message, "already exists")
    ensures r.status == 409 ==> r.error == AlreadyInPlaylist
    ensures r.status != 409 ==> r == Failure(500, AddFailed)
  {
    if Text.Contains(message, "already exists") then Failure(409, AlreadyInPlaylist)
    else Failure(500, AddFailed)
  }

  /** A song already listed is a conflict; a song that is not stored is a server error. */
  lemma AddFailureStatuses()
    ensures AddFailure(PlaylistService.SongAlreadyInPlaylist) == Failure(409, AlreadyInPlaylist)
    ensures AddFailure(PlaylistService.SongNotFound) == Failure(500, AddFailed)
  {
    assert PlaylistService.SongAlreadyInPlaylist == "Song " + "already exists" + " in playlist";
    assert Text.OccursAt(PlaylistService.SongAlreadyInPlaylist, "already exists", 5);
    Text.NotContainsWithoutFirstChar(PlaylistService.SongNotFound, "already exists");
  }

  /**
   * `POST /api/playlists/:id/songs` with `songId` in the body: a song that is
   * not stored is a 500, a playlist the caller does not own a 404, a song
   * already listed a 409; otherwise the song is appended.
   */
  method AddSongHandler(db: Db, user: Option<Id>, playlistId: Option<Id>, songId: Option<Id>, now: nat)
    returns (reply: Reply<Playlist>)
    requires db.Valid()
    modifies db
    ensures db.Valid()
    ensures db.users == old(db.users) && db.songs == old(db.songs) && db.nextId == old(db.nextId)
    ensures reply.Failure? ==> Untouched(db)
    ensures user.None? ==> reply == Failure(401, AuthenticationRequired)
    ensures user.Some? && (playlistId.None? || songId.None?) ==> reply == Failure(400, IdsRequired)
    ensures user.Some? && playlistId.Some? && songId.Some? ==>
      var owned := old(PlaylistService.GetPlaylistById(db, playlistId.value, user.value));
      && (songId.value !in old(db.songs) ==> reply == Failure(500, AddFailed))
      && (songId.value in old(db.songs) && owned.None? ==> reply == Failure(404, NotFoundForModify))
      && (songId.value in old(db.songs) && owned.Some? && songId.value in owned.value.songs ==>
            reply == Failure(409, AlreadyInPlaylist))
      && (reply.Success? <==> songId.value in old(db.songs) && owned.Some? && songId.value !in owned.value.songs)
    ensures reply.Success? ==>
      && reply.status == 200 && reply.message == Some(SongAdded)
      && reply.data.songs == old(db.playlists[playlistId.value].songs) + [songId.value]
      && Collection.NoDuplicates(reply.data.songs)
      && db.playlists == old(db.playlists)[playlistId.value := reply.data]
  {
    if user.None? {
      return Failure(401, AuthenticationRequired);
    }
    if playlistId.None? || songId.None? {
      return Failure(400, IdsRequired);
    }
    var added := PlaylistService.AddSongToPlaylist(db, playlistId.value, songId.value, user.value, now);
    if added.Err? {
      AddFailureStatuses();
      return AddFailure(added.message);
    }
    if added.value.None? {
      return Failure(404, NotFoundForModify);
    }
    reply := Success(200, added.value.value, Some(SongAdded));
  }

  /** `DELETE /api/playlists/:id/songs/:songId`: every occurrence goes, when the caller owns the playlist. */
  method RemoveSongHandler(db: Db, user: Option<Id>, playlistId: Option<Id>, songId: Option<Id>, now: nat)
    returns (reply: Reply<Playlist>)
    requires db.Valid()
    modifies db
    ensures db.Valid()
    ensures db.users == old(db.users) && db.songs == old(db.songs) && db.nextId == old(db.nextId)
    ensures reply.Failure? ==> Untouched(db)
    ensures user.None? ==> reply == Failure(401, AuthenticationRequired)
    ensures user.Some? && (playlistId.None? || songId.None?) ==> reply == Failure(400, IdsRequired)
    ensures user.Some? && playlistId.Some? && songId.Some? ==>
      (reply.Success? <==> old(PlaylistService.GetPlaylistById(db, playlistId.value, user.value)).Some?)
    ensures user.Some? && playlistId.Some? && songId.Some? && reply.Failure? ==> reply == Failure(404, NotFoundForModify)
    ensures reply.Success? ==>
      && reply.status == 200 && reply.message == Some(SongRemoved)
      && songId.value !in reply.data.songs
      && reply.data.songs == Collection.Without(old(db.playlists[playlistId.value].songs), songId.value)
      && db.playlists == old(db.playlists)[playlistId.value := reply.data]
  {
    if user.None? {
      return Failure(401, AuthenticationRequired);
    }
    if playlistId.None? || songId.None? {
      return Failure(400, IdsRequired);
    }
    var removed := PlaylistService.RemoveSongFromPlaylist(db, playlistId.value, songId.value, user.value, now);
    if removed.None? {
      return Failure(404, NotFoundForModify);
    }
    reply := Success(200, removed.value, Some(SongRemoved));
  }
}
