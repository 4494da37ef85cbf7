/**
 * The playlist service: owner-scoped reads and writes of the `playlists`
 * collection. Every operation that names a playlist matches on both its id
 * and its owner, except `DuplicatePlaylist`, which reads any playlist.
 * Population of song and owner references is left to the reader: under
 * `Db.SongRefsResolve` populating the songs of a playlist keeps its ids.
 */
module PlaylistService {
  import opened Wrappers
  import opened Schema
  import opened Paging
  import Text
  import Sorting
  import Collection
  import PlaylistModel
  import SongModel
  import opened Store

  // ----- listing ------------------------------------------------------------

  /**
   * `if (search)` adds an `$or` of case-insensitive matches on `name` and
   * `description`; an absent or empty search adds no condition.
   */
  predicate MatchesSearch(p: Playlist, search: Option<string>) {
    || search.None? || search.value == []
    || Text.ContainsIgnoreCase(p.name, search.value)
    || (p.description.Some? && Text.ContainsIgnoreCase(p.description.value, search.value))
  }

  /** The filter of `getUserPlaylists`: the owner, and the search when there is one. */
  predicate Listed(p: Playlist, userId: Id, search: Option<string>) {
    p.owner == userId && MatchesSearch(p, search)
  }

  /** The ids of the playlists `countDocuments(searchQuery)` counts. */
  ghost function MatchingIds(db: Db, userId: Id, search: Option<string>): set<Id>
    reads db
  {
    set k | k in db.playlists && Listed(db.playlists[k], userId, search)
  }

  /** The order the listing sorts by: `updatedAt` descending. */
  function NewestFirst(): (le: (Playlist, Playlist) -> bool)
    ensures Sorting.Total(le)
    ensures forall a, b :: le(a, b) == (a.updatedAt >= b.updatedAt)
  {
    Sorting.ByKeyDescTotal((p: Playlist) => p.updatedAt);
    Sorting.ByKeyDesc((p: Playlist) => p.updatedAt)
  }

  /** Every match, newest first; ties keep insertion order. */
  function UserMatches(db: Db, userId: Id, search: Option<string>): (r: seq<Playlist>)
    requires db.IdsIssued()
    reads db
    ensures forall p :: p in r <==> p in db.playlists.Values && Listed(p, userId, search)
    ensures Sorting.SortedBy(r, NewestFirst())
  {
    var matches := Collection.Filter(db.PlaylistScan(), (p: Playlist) => Listed(p, userId, search));
    var r := Sorting.SortBy(matches, NewestFirst());
    assert forall p :: p in r <==> p in matches by {
      forall p ensures p in r <==> p in matches {
        Sorting.SortByKeepsElements(matches, NewestFirst(), p);
      }
    }
    r
  }

  /** The listing counts exactly the matching playlists. */
  lemma UserMatchesCount(db: Db, userId: Id, search: Option<string>)
    requires db.IdsIssued()
    ensures |UserMatches(db, userId, search)| == |MatchingIds(db, userId, search)|
  {
    var listed := (p: Playlist) => Listed(p, userId, search);
    var matches := Collection.Filter(db.PlaylistScan(), listed);
    Collection.ScanFilterCount(db.playlists, db.nextId, listed);
    assert Collection.Chosen(db.playlists, db.nextId, listed) == MatchingIds(db, userId, search);
  }

  /**
   * `getUserPlaylists`: the page `(page - 1) * limit` onwards of at most
   * `limit` of the caller's matching playlists, newest first, with the count
   * of all matches and the number of pages.
   */
  function GetUserPlaylists(db: Db, userId: Id, page: int, limit: int, search: Option<string>): (r: Result<Page<Playlist>>)
    requires db.IdsIssued()
    requires limit != 0
    reads db
    ensures r.Ok? <==> Offset(page, limit) >= 0
    ensures r.Ok? ==> r.value.total == |MatchingIds(db, userId, search)|
    ensures r.Ok? ==> r.value.totalPages == CeilDiv(r.value.total, limit)
    ensures r.Ok? ==> forall p :: p in r.value.data ==> p in db.playlists.Values && Listed(p, userId, search)
    ensures r.Ok? ==> |r.value.data| <= Abs(limit) && Sorting.SortedBy(r.value.data, NewestFirst())
    ensures r.Ok? ==> r.value.data == Window(UserMatches(db, userId, search), Offset(page, limit), Abs(limit))
  {
    var all := UserMatches(db, userId, search);
    UserMatchesCount(db, userId, search);
    if Offset(page, limit) < 0 then Paginate(all, page, limit)
    else
      WindowOfSorted(all, Offset(page, limit), Abs(limit), NewestFirst());
      Paginate(all, page, limit)
  }

  /** `getPlaylistById`: the playlist, only when the caller owns it. */
  function GetPlaylistById(db: Db, playlistId: Id, userId: Id): (r: Option<Playlist>)
    reads db
    ensures r.Some? <==> playlistId in db.playlists && db.playlists[playlistId].owner == userId
    ensures r.Some? ==> r.value == db.playlists[playlistId] && r.value.owner == userId
  {
    if playlistId in db.playlists && db.playlists[playlistId].owner == userId then Some(db.playlists[playlistId])
    else None
  }

  // ----- writes ---------------------------------------------------------------

  /**
   * `new PlaylistModel({...}).save()`: validate the fields, then store a new
   * playlist under a fresh id with both timestamps set to `now`. A failed
   * validation stores nothing.
   */
  method SavePlaylist(db: Db, name: Option<string>, description: Option<string>, owner: Option<Id>, songs: seq<Id>, now: nat)
    returns (r: Result<Playlist>)
    requires db.Valid()
    requires Collection.NoDuplicates(songs) && forall s :: s in songs ==> s in db.songs
    modifies db
    ensures db.Valid()
    ensures db.users == old(db.users) && db.songs == old(db.songs)
    ensures r.Ok? <==> PlaylistModel.Validate(name, description, owner).Ok?
    ensures r.Err? ==> r.message == PlaylistModel.Validate(name, description, owner).message
    ensures r.Err? ==> db.playlists == old(db.playlists) && db.nextId == old(db.nextId)
    ensures r.Ok? ==>
      var f := PlaylistModel.Validate(name, description, owner).value;
      && r.value == Playlist(old(db.nextId), f.name, f.description, f.owner, songs, now, now)
      && old(db.nextId) !in old(db.playlists)
      && db.playlists == old(db.playlists)[old(db.nextId) := r.value]
  {
    var v := PlaylistModel.Validate(name, description, owner);
    if v.Err? {
      return Err(v.message);
    }
    var id := db.NewId();
    var p := Playlist(id, v.value.name, v.value.description, v.value.owner, songs, now, now);
    assert PlaylistModel.FieldsOf(p) == v.value;
    PutPlaylist(db.playlists, db.songs, db.nextId, p);
    db.playlists := db.playlists[id := p];
    r := Ok(p);
  }

  /** `createPlaylist`: a new playlist of the caller's, with no songs. */
  method CreatePlaylist(db: Db, data: InsertPlaylist, owner: Id, now: nat) returns (r: Result<Playlist>)
    requires db.Valid()
    modifies db
    ensures db.Valid()
    ensures db.users == old(db.users) && db.songs == old(db.songs)
    ensures r.Ok? <==> PlaylistModel.Validate(Some(data.name), data.description, Some(owner)).Ok?
    ensures r.Err? ==> db.playlists == old(db.playlists) && db.nextId == old(db.nextId)
    ensures r.Ok? ==>
      var f := PlaylistModel.Validate(Some(data.name), data.description, Some(owner)).value;
      && r.value == Playlist(old(db.nextId), f.name, f.description, owner, [], now, now)
      && r.value.name == Text.Trim(data.name)
      && r.value.id !in old(db.playlists) && db.playlists == old(db.playlists)[r.value.id := r.value]
  {
    r := SavePlaylist(db, Some(data.name), data.description, Some(owner), [], now);
  }

  /**
   * `updatePlaylist`: the update validators run first; then the playlist is
   * changed only when the caller owns it, and `updatedAt` becomes `now`.
   */
  method UpdatePlaylist(db: Db, playlistId: Id, userId: Id, data: UpdatePlaylist, now: nat)
    returns (r: Result<Option<Playlist>>)
    requires db.Valid()
    modifies db
    ensures db.Valid()
    ensures db.users == old(db.users) && db.songs == old(db.songs) && db.nextId == old(db.nextId)
    ensures r.Err? <==> PlaylistModel.ValidateUpdate(data.name, data.description).Err?
    ensures r.Ok? && r.value.Some? <==> r.Ok? && old(GetPlaylistById(db, playlistId, userId)).Some?
    ensures !(r.Ok? && r.value.Some?) ==> db.playlists == old(db.playlists)
    ensures r.Ok? && r.value.Some? ==>
      var old_ := old(db.playlists[playlistId]);
      var (n, d) := PlaylistModel.ValidateUpdate(data.name, data.description).value;
      var p := r.value.value;
      && p.id == playlistId && p.owner == userId && p.songs == old_.songs && p.createdAt == old_.createdAt
      && p.name == (if n.Some? then n.value else old_.name)
      && p.description == (if d.Some? then d else old_.description)
      && p.updatedAt == now
      && db.playlists == old(db.playlists)[playlistId := p]
  {
    var v := PlaylistModel.ValidateUpdate(data.name, data.description);
    if v.Err? {
      return Err(v.message);
    }
    if !(playlistId in db.playlists && db.playlists[playlistId].owner == userId) {
      return Ok(None);
    }
    var q := db.playlists[playlistId];
    var (n, d) := v.value;
    PlaylistModel.UpdateKeepsValid(PlaylistModel.FieldsOf(q), data.name, data.description);
    var f := PlaylistModel.ApplyUpdate(PlaylistModel.FieldsOf(q), n, d);
    var p := q.(name := f.name, description := f.description, updatedAt := now);
    assert PlaylistModel.FieldsOf(p) == f;
    PutPlaylist(db.playlists, db.songs, db.nextId, p);
    db.playlists := db.playlists[playlistId := p];
    r := Ok(Some(p));
  }

  /** `deletePlaylist`: removes the playlist iff the caller owns it, and says whether it did. */
  method DeletePlaylist(db: Db, playlistId: Id, userId: Id) returns (deleted: bool)
    requires db.Valid()
    modifies db
    ensures db.Valid()
    ensures db.users == old(db.users) && db.songs == old(db.songs) && db.nextId == old(db.nextId)
    ensures deleted <==> old(GetPlaylistById(db, playlistId, userId)).Some?
    ensures deleted ==> playlistId !in db.playlists && db.playlists == old(db.playlists) - {playlistId}
    ensures !deleted ==> db.playlists == old(db.playlists)
  {
    deleted := playlistId in db.playlists && db.playlists[playlistId].owner == userId;
    if deleted {
      db.playlists := db.playlists - {playlistId};
    }
  }

  const SongNotFound := "Song not found"
  const SongAlreadyInPlaylist := "Song already exists in playlist"

  /**
   * `addSongToPlaylist`: fails when the song is not stored, before looking at
   * the playlist; yields `None` when the caller does not own the playlist;
   * fails when the song is already listed; otherwise appends it.
   */
  method AddSongToPlaylist(db: Db, playlistId: Id, songId: Id, userId: Id, now: nat)
    returns (r: Result<Option<Playlist>>)
    requires db.Valid()
    modifies db
    ensures db.Valid()
    ensures db.users == old(db.users) && db.songs == old(db.songs) && db.nextId == old(db.nextId)
    ensures songId !in old(db.songs) <==> r == Err(SongNotFound)
    ensures r == Ok(None) <==> songId in old(db.songs) && old(GetPlaylistById(db, playlistId, userId)).None?
    ensures r == Err(SongAlreadyInPlaylist) <==>
      songId in old(db.songs) && old(GetPlaylistById(db, playlistId, userId)).Some?
      && songId in old(db.playlists[playlistId].songs)
    ensures r.Err? ==> r == Err(SongNotFound) || r == Err(SongAlreadyInPlaylist)
    ensures !(r.Ok? && r.value.Some?) ==> db.playlists == old(db.playlists)
    ensures r.Ok? && r.value.Some? ==>
      var p := r.value.value;
      && p == old(db.playlists[playlistId]).(songs := old(db.playlists[playlistId].songs) + [songId], updatedAt := now)
      && db.playlists == old(db.playlists)[playlistId := p]
  {
    if songId !in db.songs {
      return Err(SongNotFound);
    }
    if !(playlistId in db.playlists && db.playlists[playlistId].owner == userId) {
      return Ok(None);
    }
    var q := db.playlists[playlistId];
    if songId in q.songs {
      return Err(SongAlreadyInPlaylist);
    }
    Collection.NoDuplicatesAppend(q.songs, songId);
    var p := q.(songs := q.songs + [songId], updatedAt := now);
    assert PlaylistModel.FieldsOf(p) == PlaylistModel.FieldsOf(q);
    PutPlaylist(db.playlists, db.songs, db.nextId, p);
    db.playlists := db.playlists[playlistId := p];
    r := Ok(Some(p));
  }

  /**
   * `removeSongFromPlaylist`: when the caller owns the playlist, `$pull`
   * drops every occurrence of the song, whether or not it is stored or
   * listed, and `updatedAt` becomes `now`.
   */
  method RemoveSongFromPlaylist(db: Db, playlistId: Id, songId: Id, userId: Id, now: nat)
    returns (r: Option<Playlist>)
    requires db.Valid()
    modifies db
    ensures db.Valid()
    ensures db.users == old(db.users) && db.songs == old(db.songs) && db.nextId == old(db.nextId)
    ensures r.Some? <==> old(GetPlaylistById(db, playlistId, userId)).Some?
    ensures r.None? ==> db.playlists == old(db.playlists)
    ensures r.Some? ==>
      && r.value == old(db.playlists[playlistId]).(songs := Collection.Without(old(db.playlists[playlistId].songs), songId), updatedAt := now)
      && db.playlists == old(db.playlists)[playlistId := r.value]
  {
    if !(playlistId in db.playlists && db.playlists[playlistId].owner == userId) {
      return None;
    }
    var q := db.playlists[playlistId];
    Collection.WithoutNoDuplicates(q.songs, songId);
    var p := q.(songs := Collection.Without(q.songs, songId), updatedAt := now);
    assert PlaylistModel.FieldsOf(p) == PlaylistModel.FieldsOf(q);
    PutPlaylist(db.playlists, db.songs, db.nextId, p);
    db.playlists := db.playlists[playlistId := p];
    r := Some(p);
  }

  /** The suffix `duplicatePlaylist` appends to the original's name. */
  const CopySuffix := " (Copy)"

  /** `newName || \`${name} (Copy)\``: an absent or empty new name falls back. */
  function CopyName(original: string, newName: Option<string>): (r: string)
    ensures newName.Some? && newName.value != [] ==> r == newName.value
    ensures newName.None? || newName.value == [] ==> r == original + CopySuffix
  {
    if newName.Some? && newName.value != [] then newName.value else original + CopySuffix
  }

  /**
   * `duplicatePlaylist`: any stored playlist, whoever owns it, is copied for
   * the caller: same description, the songs that still resolve in the same
   * order, and the name `CopyName`. The copy is saved, so it is validated:
   * an original name of more than 93 characters makes the default name too
   * long.
   */
  method DuplicatePlaylist(db: Db, originalId: Id, userId: Id, newName: Option<string>, now: nat)
    returns (r: Result<Option<Playlist>>)
    requires db.Valid()
    modifies db
    ensures db.Valid()
    ensures db.users == old(db.users) && db.songs == old(db.songs)
    ensures r == Ok(None) <==> originalId !in old(db.playlists)
    ensures r == Ok(None) ==> db.playlists == old(db.playlists) && db.nextId == old(db.nextId)
    ensures originalId in old(db.playlists) ==>
      var o := old(db.playlists[originalId]);
      r.Ok? <==> PlaylistModel.Validate(Some(CopyName(o.name, newName)), o.description, Some(userId)).Ok?
    ensures r.Ok? && r.value.Some? ==>
      var o := old(db.playlists[originalId]);
      var p := r.value.value;
      && p == Playlist(old(db.nextId), Text.Trim(CopyName(o.name, newName)), o.description, userId, o.songs, now, now)
      && p.id !in old(db.playlists) && db.playlists == old(db.playlists)[p.id := p]
    ensures r.Err? ==> db.playlists == old(db.playlists) && db.nextId == old(db.nextId)
    ensures r.Err? ==> r.message == PlaylistModel.Validate(Some(CopyName(old(db.playlists[originalId]).name, newName)), old(db.playlists[originalId]).description, Some(userId)).message
  {
    if originalId !in db.playlists {
      return Ok(None);
    }
    var o := db.playlists[originalId];
    var stored := db.songs;
    assert forall s :: s in o.songs ==> s in stored;
    var populated := Collection.Filter(o.songs, (s: Id) => s in stored);
    Collection.FilterAll(o.songs, (s: Id) => s in stored);
    assert PlaylistModel.ValidFields(PlaylistModel.FieldsOf(o));
    PlaylistModel.SavedDescriptionTrimmed(PlaylistModel.FieldsOf(o));
    var saved := SavePlaylist(db, Some(CopyName(o.name, newName)), o.description, Some(userId), populated, now);
    if saved.Err? {
      return Err(saved.message);
    }
    r := Ok(Some(saved.value));
  }

  // ----- statistics ---------------------------------------------------------

  /** `populate('songs')`: the stored songs the ids name, in order; ids with no song are dropped. */
  function Populate(songs: map<Id, Song>, ids: seq<Id>): (r: seq<Song>)
    ensures |r| <= |ids|
    ensures (forall s :: s in ids ==> s in songs) ==> |r| == |ids| && forall i :: 0 <= i < |ids| ==> r[i] == songs[ids[i]]
  {
    if ids == [] then []
    else
      assert forall s :: s in ids[1..] ==> s in ids;
      (if ids[0] in songs then [songs[ids[0]]] else []) + Populate(songs, ids[1..])
  }

  /** The `reduce` that sums the songs' durations; a missing one counts 0. */
  function TotalDuration(songs: seq<Song>): int {
    if songs == [] then 0 else songs[0].duration + TotalDuration(songs[1..])
  }

  /** Summing a list extended by one song adds that song's duration. */
  lemma {:induction false} TotalDurationAppend(songs: seq<Song>, s: Song)
    ensures TotalDuration(songs + [s]) == TotalDuration(songs) + s.duration
  {
    if songs != [] {
      assert (songs + [s])[1..] == songs[1..] + [s];
      TotalDurationAppend(songs[1..], s);
    }
  }

  /** A sum of non-negative durations is non-negative. */
  lemma {:induction false} TotalDurationNonNegative(songs: seq<Song>)
    requires forall i :: 0 <= i < |songs| ==> songs[i].duration >= 0
    ensures TotalDuration(songs) >= 0
  {
    if songs != [] {
      TotalDurationNonNegative(songs[1..]);
    }
  }

  /** `Math.floor(a / b)` for a positive `b`: Dafny's division already rounds down. */
  function FloorDiv(a: int, b: int): int
    requires b > 0
  {
    a / b
  }

  /** JavaScript's `%`: the remainder takes the sign of the dividend. */
  function JsRem(a: int, b: int): int
    requires b > 0
  {
    if a >= 0 then a % b else -((-a) % b)
  }

  /** `formatDuration`: "Hh Mm" once there is a whole hour, "Mm Ss" before. */
  function FormatDuration(milliseconds: int): string {
    var seconds := FloorDiv(milliseconds, 1000);
    var minutes := FloorDiv(seconds, 60);
    var hours := FloorDiv(minutes, 60);
    if hours > 0 then Text.IntToString(hours) + "h " + Text.IntToString(JsRem(minutes, 60)) + "m"
    else Text.IntToString(minutes) + "m " + Text.IntToString(JsRem(seconds, 60)) + "s"
  }

  /**
   * What `FormatDuration` prints, read back: whole hours and the minutes
   * left over, or whole minutes and the seconds left over, each part rounded
   * down.
   */
  lemma FormatDurationReadsBack(ms: nat)
    ensures ms >= 3600000 ==>
      exists h: nat, m: nat :: m < 60 && h >= 1
        && FormatDuration(ms) == Text.NatToString(h) + "h " + Text.NatToString(m) + "m"
        && h * 3600000 + m * 60000 <= ms < h * 3600000 + (m + 1) * 60000
    ensures ms < 3600000 ==>
      exists m: nat, s: nat :: s < 60 && m < 60
        && FormatDuration(ms) == Text.NatToString(m) + "m " + Text.NatToString(s) + "s"
        && m * 60000 + s * 1000 <= ms < m * 60000 + (s + 1) * 1000
  {
    var seconds := ms / 1000;
    var minutes := seconds / 60;
    var hours := minutes / 60;
    if ms >= 3600000 {
      assert hours >= 1;
      var m := minutes % 60;
      assert hours * 3600000 + m * 60000 <= ms < hours * 3600000 + (m + 1) * 60000;
      assert FormatDuration(ms) == Text.NatToString(hours) + "h " + Text.NatToString(m) + "m";
    } else {
      assert hours == 0;
      var s := seconds % 60;
      assert minutes * 60000 + s * 1000 <= ms < minutes * 60000 + (s + 1) * 1000;
      assert FormatDuration(ms) == Text.NatToString(minutes) + "m " + Text.NatToString(s) + "s";
    }
  }

  datatype Stats = Stats(songCount: nat, totalDuration: int, totalDurationFormatted: string, createdAt: nat, updatedAt: nat)

  /**
   * `getPlaylistStats`: for a playlist the caller owns, the number of its
   * songs that resolve, their total duration and that total formatted.
   */
  function GetPlaylistStats(db: Db, playlistId: Id, userId: Id): (r: Option<Stats>)
    reads db
    ensures r.Some? <==> GetPlaylistById(db, playlistId, userId).Some?
    ensures r.Some? ==>
      var p := db.playlists[playlistId];
      var songs := Populate(db.songs, p.songs);
      && r.value.songCount == |songs| && r.value.totalDuration == TotalDuration(songs)
      && r.value.totalDurationFormatted == FormatDuration(r.value.totalDuration)
      && r.value.createdAt == p.createdAt && r.value.updatedAt == p.updatedAt
  {
    match GetPlaylistById(db, playlistId, userId)
    case None => None
    case Some(p) =>
      var songs := Populate(db.songs, p.songs);
      var total := TotalDuration(songs);
      Some(Stats(|songs|, total, FormatDuration(total), p.createdAt, p.updatedAt))
  }

  /** In a valid store every listed song resolves, so `songCount` is the list's length and the total is not negative. */
  lemma StatsOfValidStore(db: Db, playlistId: Id, userId: Id)
    requires db.Valid()
    requires GetPlaylistById(db, playlistId, userId).Some?
    ensures GetPlaylistStats(db, playlistId, userId).value.songCount == |db.playlists[playlistId].songs|
    ensures GetPlaylistStats(db, playlistId, userId).value.totalDuration >= 0
  {
    var songs := Populate(db.songs, db.playlists[playlistId].songs);
    forall i | 0 <= i < |songs| ensures songs[i].duration >= 0 {
      var ids := db.playlists[playlistId].songs;
      assert ids[i] in ids;
      assert SongModel.ValidFields(SongModel.FieldsOf(db.songs[ids[i]]));
    }
    TotalDurationNonNegative(songs);
  }
}
