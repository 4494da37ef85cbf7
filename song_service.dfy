/**
 * The song service: the `songs` collection, keyed by id and, through its
 * unique index, by `spotifyId`. Creation is lookup-or-create, deletion first
 * detaches the song from every playlist, and the read side offers a
 * searchable listing, a popularity ranking and per-song statistics.
 */
module SongService {
  import opened Wrappers
  import opened Schema
  import opened Paging
  import Text
  import Sorting
  import Collection
  import SongModel
  import PlaylistModel
  import opened Store

  // ----- queries over the collection ------------------------------------------

  /** Every stored song that satisfies `p`, ordered by `le`; ties keep insertion order. */
  function Query(db: Db, p: Song -> bool, le: (Song, Song) -> bool): (r: seq<Song>)
    requires db.IdsIssued() && Sorting.Total(le)
    reads db
    ensures forall s :: s in r <==> s in db.songs.Values && p(s)
    ensures Sorting.SortedBy(r, le)
  {
    var matches := Collection.Filter(db.SongScan(), p);
    var r := Sorting.SortBy(matches, le);
    assert forall s :: s in r <==> s in matches by {
      forall s ensures s in r <==> s in matches {
        Sorting.SortByKeepsElements(matches, le, s);
      }
    }
    r
  }

  /** The ids of the songs `countDocuments` counts for the filter `p`. */
  ghost function QueryIds(db: Db, p: Song -> bool): set<Id>
    reads db
  {
    set k | k in db.songs && p(db.songs[k])
  }

  /** A query returns exactly as many songs as match. */
  lemma QueryCount(db: Db, p: Song -> bool, le: (Song, Song) -> bool)
    requires db.IdsIssued() && Sorting.Total(le)
    ensures |Query(db, p, le)| == |QueryIds(db, p)|
  {
    var matches := Collection.Filter(db.SongScan(), p);
    Collection.ScanFilterCount(db.songs, db.nextId, p);
    assert Collection.Chosen(db.songs, db.nextId, p) == QueryIds(db, p);
  }

  /**
   * `countDocuments(q)` and `find(q).sort(..).skip(offset).limit(limit)`:
   * one page of the ordered matches and the count of all of them.
   */
  function FindPage(db: Db, p: Song -> bool, le: (Song, Song) -> bool, page: int, limit: int): (r: Result<Page<Song>>)
    requires db.IdsIssued() && Sorting.Total(le)
    requires limit != 0
    reads db
    ensures r.Ok? <==> Offset(page, limit) >= 0
    ensures r.Ok? ==> r.value.page == page && r.value.limit == limit
    ensures r.Ok? ==> r.value.total == |QueryIds(db, p)| && r.value.totalPages == CeilDiv(r.value.total, limit)
    ensures r.Ok? ==> forall s :: s in r.value.data ==> s in db.songs.Values && p(s)
    ensures r.Ok? ==> |r.value.data| <= Abs(limit) && Sorting.SortedBy(r.value.data, le)
    ensures r.Ok? ==> r.value.data == Window(Query(db, p, le), Offset(page, limit), Abs(limit))
  {
    var all := Query(db, p, le);
    QueryCount(db, p, le);
    if Offset(page, limit) < 0 then Paginate(all, page, limit)
    else
      WindowOfSorted(all, Offset(page, limit), Abs(limit), le);
      Paginate(all, page, limit)
  }

  /** `{$regex: text, $options: 'i'}` on `name`, `artist` or `album`. */
  predicate MatchesText(s: Song, text: string) {
    || Text.ContainsIgnoreCase(s.name, text)
    || Text.ContainsIgnoreCase(s.artist, text)
    || Text.ContainsIgnoreCase(s.album, text)
  }

  /** `if (search)`: an absent or empty search adds no condition. */
  predicate MatchesSearch(s: Song, search: Option<string>) {
    search.None? || search.value == [] || MatchesText(s, search.value)
  }

  /** The filter of `getSongs`. */
  function SearchFilter(search: Option<string>): Song -> bool {
    (s: Song) => MatchesSearch(s, search)
  }

  /** `sort({createdAt: -1})`. */
  function NewestFirst(): (le: (Song, Song) -> bool)
    ensures Sorting.Total(le)
    ensures forall a, b :: le(a, b) == (a.createdAt >= b.createdAt)
  {
    Sorting.ByKeyDescTotal((s: Song) => s.createdAt);
    Sorting.ByKeyDesc((s: Song) => s.createdAt)
  }

  /** `sort({name: 1})`. */
  function ByName(): (le: (Song, Song) -> bool)
    ensures Sorting.Total(le)
    ensures forall a, b :: le(a, b) == Sorting.LexLe(a.name, b.name)
  {
    Sorting.ByTextAscTotal((s: Song) => s.name);
    Sorting.ByTextAsc((s: Song) => s.name)
  }

  /**
   * `getSongs`: the page `(page - 1) * limit` onwards of the songs matching
   * the search, newest first, with the count of all matches.
   */
  function GetSongs(db: Db, page: int, limit: int, search: Option<string>): (r: Result<Page<Song>>)
    requires db.IdsIssued()
    requires limit != 0
    reads db
    ensures r.Ok? <==> Offset(page, limit) >= 0
    ensures r.Ok? ==> r.value.page == page && r.value.limit == limit
    ensures r.Ok? ==> r.value.total == |QueryIds(db, SearchFilter(search))|
    ensures r.Ok? ==> r.value.totalPages == CeilDiv(r.value.total, limit)
    ensures r.Ok? ==> forall s :: s in r.value.data ==> s in db.songs.Values && MatchesSearch(s, search)
    ensures r.Ok? ==> |r.value.data| <= Abs(limit)
    ensures r.Ok? ==> forall i :: 0 < i < |r.value.data| ==> r.value.data[i - 1].createdAt >= r.value.data[i].createdAt
    ensures r.Ok? ==> r.value.data == Window(Query(db, SearchFilter(search), NewestFirst()), Offset(page, limit), Abs(limit))
  {
    var p := SearchFilter(search);
    FindPage(db, p, NewestFirst(), page, limit)
  }

  /** `getSongById`. */
  function GetSongById(db: Db, songId: Id): (r: Option<Song>)
    reads db
    ensures r.Some? <==> songId in db.songs
    ensures r.Some? ==> r.value == db.songs[songId]
  {
    if songId in db.songs then Some(db.songs[songId]) else None
  }

  /**
   * `getSongBySpotifyId`: `findOne({spotifyId})`. The query value goes
   * through the path's trim setter, as a saved value does.
   */
  function GetSongBySpotifyId(db: Db, spotifyId: string): (r: Option<Song>)
    requires db.IdsIssued()
    reads db
    ensures r.Some? ==> r.value in db.songs.Values && r.value.spotifyId == Text.Trim(spotifyId)
    ensures r.None? <==> forall s :: s in db.songs.Values ==> s.spotifyId != Text.Trim(spotifyId)
  {
    db.SongWithSpotifyId(Text.Trim(spotifyId))
  }

  /** The unique index makes the lookup exact: it finds the one song with that `spotifyId`. */
  lemma LookupFindsStored(db: Db, spotifyId: string, s: Song)
    requires db.Valid()
    requires s in db.songs.Values && s.spotifyId == Text.Trim(spotifyId)
    ensures GetSongBySpotifyId(db, spotifyId) == Some(s)
  {
    var r := GetSongBySpotifyId(db, spotifyId);
    var a :| a in db.songs && db.songs[a] == r.value;
    var b :| b in db.songs && db.songs[b] == s;
    assert a == b;
  }

  /** In a valid store no two songs share a `spotifyId`. */
  lemma AtMostOneSongPerSpotifyId(db: Db, s: Song, t: Song)
    requires db.Valid()
    requires s in db.songs.Values && t in db.songs.Values && s.spotifyId == t.spotifyId
    ensures s == t
  {
    var a :| a in db.songs && db.songs[a] == s;
    var b :| b in db.songs && db.songs[b] == t;
  }

  // ----- writes ---------------------------------------------------------------

  /**
   * `createSong`: a song already stored under the (trimmed) `spotifyId` is
   * returned as it is and nothing is inserted; otherwise the data is
   * validated and, if it passes, saved under a fresh id.
   */
  method CreateSong(db: Db, data: InsertSong, now: nat) returns (r: Result<Song>)
    requires db.Valid()
    modifies db
    ensures db.Valid()
    ensures db.users == old(db.users) && db.playlists == old(db.playlists)
    ensures old(GetSongBySpotifyId(db, data.spotifyId)).Some? ==>
      && r == Ok(old(GetSongBySpotifyId(db, data.spotifyId)).value)
      && db.songs == old(db.songs) && db.nextId == old(db.nextId)
    ensures old(GetSongBySpotifyId(db, data.spotifyId)).None? ==>
      && (r.Ok? <==> SongModel.Validate(data).Ok?)
      && (r.Err? ==> r.message == SongModel.Validate(data).message && db.songs == old(db.songs) && db.nextId == old(db.nextId))
      && (r.Ok? ==>
            && r.value == SongModel.MakeSong(old(db.nextId), SongModel.Validate(data).value, now)
            && r.value.id !in old(db.songs) && db.songs == old(db.songs)[r.value.id := r.value])
    ensures forall k :: k in old(db.songs) ==> k in db.songs && db.songs[k] == old(db.songs[k])
    ensures r.Err? ==> SongModel.Validate(data).Err?
    ensures r.Err? ==> forall t :: t in old(db.songs).Values ==> t.spotifyId != Text.Trim(data.spotifyId)
    ensures r.Ok? ==> r.value.spotifyId == Text.Trim(data.spotifyId)
    ensures r.Ok? ==> r.value.id in db.songs && db.songs[r.value.id] == r.value
    ensures r.Ok? ==> GetSongBySpotifyId(db, data.spotifyId) == Some(r.value)
    ensures db.songs.Keys == old(db.songs).Keys + (if r.Ok? then {r.value.id} else {})
  {
    var existing := GetSongBySpotifyId(db, data.spotifyId);
    if existing.Some? {
      return Ok(existing.value);
    }
    var v := SongModel.Validate(data);
    if v.Err? {
      return Err(v.message);
    }
    var s := SaveSong(db, v.value, now);
    assert db.songs[s.id] == s && s.spotifyId == v.value.spotifyId;
    r := Ok(s);
    LookupFindsStored(db, data.spotifyId, s);
  }

  /** `new SongModel(data).save()` for fields that passed validation and a `spotifyId` no song holds. */
  method SaveSong(db: Db, f: InsertSong, now: nat) returns (s: Song)
    requires db.Valid() && SongModel.ValidFields(f)
    requires forall t :: t in db.songs.Values ==> t.spotifyId != f.spotifyId
    modifies db
    ensures db.Valid()
    ensures db.users == old(db.users) && db.playlists == old(db.playlists)
    ensures s == SongModel.MakeSong(old(db.nextId), f, now)
    ensures s.id !in old(db.songs) && db.songs == old(db.songs)[s.id := s]
  {
    var id := db.NewId();
    s := SongModel.MakeSong(id, f, now);
    assert forall k :: k in db.songs && k != s.id ==> db.songs[k].spotifyId != s.spotifyId by {
      forall k | k in db.songs && k != s.id ensures db.songs[k].spotifyId != s.spotifyId {
        assert db.songs[k] in db.songs.Values;
      }
    }
    PutSong(db.playlists, db.songs, db.nextId, s);
    db.songs := db.songs[id := s];
  }

  /** Another stored song than `songId` has this `spotifyId`. */
  ghost predicate Clashes(songs: map<Id, Song>, songId: Id, spotifyId: string) {
    exists k :: k in songs && k != songId && songs[k].spotifyId == spotifyId
  }

  /** A stored song with new fields and a new `updatedAt`. */
  function WithFields(s: Song, f: InsertSong, now: nat): (t: Song)
    ensures SongModel.FieldsOf(t) == f
    ensures t.id == s.id && t.createdAt == s.createdAt && t.updatedAt == now
  {
    s.(spotifyId := f.spotifyId, name := f.name, artist := f.artist, album := f.album, duration := f.duration,
       imageUrl := f.imageUrl, previewUrl := f.previewUrl, updatedAt := now)
  }

  /**
   * `updateSong`: `findByIdAndUpdate` with the update validators. An invalid
   * update fails, an unknown id yields `None`, a `spotifyId` another song
   * holds violates the unique index, and otherwise the set paths change and
   * `updatedAt` becomes `now`.
   */
  method UpdateSong(db: Db, songId: Id, u: SongUpdate, now: nat) returns (r: Result<Option<Song>>)
    requires db.Valid()
    modifies db
    ensures db.Valid()
    ensures db.users == old(db.users) && db.playlists == old(db.playlists) && db.nextId == old(db.nextId)
    ensures SongModel.ValidateUpdate(u).Err? ==>
      r == Err(SongModel.ValidateUpdate(u).message) && db.songs == old(db.songs)
    ensures SongModel.ValidateUpdate(u).Ok? && songId !in old(db.songs) ==>
      r == Ok(None) && db.songs == old(db.songs)
    ensures SongModel.ValidateUpdate(u).Ok? && songId in old(db.songs) ==>
      var v := SongModel.ValidateUpdate(u).value;
      if v.spotifyId.Some? && Clashes(old(db.songs), songId, v.spotifyId.value) then
        r == Err(SongModel.DuplicateKey) && db.songs == old(db.songs)
      else
        var t := WithFields(old(db.songs[songId]), SongModel.ApplyUpdate(SongModel.FieldsOf(old(db.songs[songId])), v), now);
        r == Ok(Some(t)) && db.songs == old(db.songs)[songId := t]
  {
    var v := SongModel.ValidateUpdate(u);
    if v.Err? {
      return Err(v.message);
    }
    if songId !in db.songs {
      return Ok(None);
    }
    ValidIdsIssued(db);
    if v.value.spotifyId.Some? {
      var holder := db.SongWithSpotifyId(v.value.spotifyId.value);
      if holder.Some? && holder.value.id != songId {
        var k :| k in db.songs && db.songs[k] == holder.value;
        return Err(SongModel.DuplicateKey);
      }
      assert !Clashes(db.songs, songId, v.value.spotifyId.value) by {
        if holder.Some? {
          var k :| k in db.songs && db.songs[k] == holder.value;
          assert k == songId;
        }
      }
    }
    var old_ := db.songs[songId];
    SongModel.UpdateKeepsValid(SongModel.FieldsOf(old_), u);
    var t := WithFields(old_, SongModel.ApplyUpdate(SongModel.FieldsOf(old_), v.value), now);
    PutSong(db.playlists, db.songs, db.nextId, t);
    db.songs := db.songs[songId := t];
    r := Ok(Some(t));
  }

  /**
   * What `updateMany({songs: id}, {$pull: {songs: id}})` does to one
   * playlist: a playlist listing the song loses every occurrence of it and
   * gets a new `updatedAt`; any other playlist is not matched.
   */
  function Detach(p: Playlist, songId: Id, now: nat): Playlist {
    if songId in p.songs then p.(songs := Collection.Without(p.songs, songId), updatedAt := now) else p
  }

  function DetachAll(playlists: map<Id, Playlist>, songId: Id, now: nat): map<Id, Playlist> {
    map k | k in playlists :: Detach(playlists[k], songId, now)
  }

  /**
   * After the detach no playlist lists the song, every other song stays
   * listed where it was, and playlists that did not list it are untouched.
   */
  lemma DetachAllUnlists(playlists: map<Id, Playlist>, songId: Id, now: nat)
    ensures DetachAll(playlists, songId, now).Keys == playlists.Keys
    ensures forall k :: k in playlists ==>
      var p := DetachAll(playlists, songId, now)[k];
      && songId !in p.songs
      && p.songs == Collection.Without(playlists[k].songs, songId)
      && p.id == playlists[k].id && p.name == playlists[k].name && p.owner == playlists[k].owner
    ensures forall k :: k in playlists && songId !in playlists[k].songs ==>
      DetachAll(playlists, songId, now)[k] == playlists[k]
  {
    forall k | k in playlists && songId !in playlists[k].songs
      ensures Collection.Without(playlists[k].songs, songId) == playlists[k].songs
    {
      Collection.WithoutAbsent(playlists[k].songs, songId);
    }
  }

  /** Detaching twice is detaching once: a second `deleteSong` leaves the playlists alone. */
  lemma DetachAllIdempotent(playlists: map<Id, Playlist>, songId: Id, now: nat, later: nat)
    ensures DetachAll(DetachAll(playlists, songId, now), songId, later) == DetachAll(playlists, songId, now)
  {
    DetachAllUnlists(playlists, songId, now);
  }

  /** The detach keeps the playlists valid even once the song itself is gone. */
  lemma DetachKeepsValid(playlists: map<Id, Playlist>, songs: map<Id, Song>, nextId: nat, songId: Id, now: nat)
    requires PlaylistsValid(playlists, songs, nextId)
    ensures PlaylistsValid(DetachAll(playlists, songId, now), songs - {songId}, nextId)
  {
    var d := DetachAll(playlists, songId, now);
    forall k | k in d
      ensures Collection.NoDuplicates(d[k].songs)
      ensures PlaylistModel.FieldsOf(d[k]) == PlaylistModel.FieldsOf(playlists[k])
    {
      Collection.WithoutNoDuplicates(playlists[k].songs, songId);
    }
  }

  /**
   * `deleteSong`: first the song is pulled from every playlist, whether or
   * not it is stored; then it is deleted. The result says whether it was
   * stored.
   */
  method DeleteSong(db: Db, songId: Id, now: nat) returns (deleted: bool)
    requires db.Valid()
    modifies db
    ensures db.Valid()
    ensures db.users == old(db.users) && db.nextId == old(db.nextId)
    ensures deleted <==> songId in old(db.songs)
    ensures db.songs == old(db.songs) - {songId}
    ensures db.playlists == DetachAll(old(db.playlists), songId, now)
  {
    DetachKeepsValid(db.playlists, db.songs, db.nextId, songId, now);
    db.playlists := DetachAll(db.playlists, songId, now);
    deleted := songId in db.songs;
    db.songs := db.songs - {songId};
  }

  /** What the batch has established once the first `done` items have been tried. */
  ghost predicate BatchSoFar(items: seq<InsertSong>, done: nat, base: map<Id, Song>, songs: map<Id, Song>,
                             created: seq<Song>, picked: seq<nat>) {
    && done <= |items|
    && (forall k :: k in base ==> k in songs && songs[k] == base[k])
    && |picked| == |created| <= done
    && (forall j :: 0 <= j < |picked| ==> picked[j] < done)
    && (forall j, j' :: 0 <= j < j' < |picked| ==> picked[j] < picked[j'])
    && (forall j :: 0 <= j < |created| ==>
          && created[j].spotifyId == Text.Trim(items[picked[j]].spotifyId)
          && created[j].id in songs && songs[created[j].id] == created[j])
    && (forall i :: 0 <= i < done && i !in picked ==> !SongModel.Acceptable(items[i]))
  }

  /** One more item tried and skipped, because it failed validation. */
  lemma BatchStepSkipped(items: seq<InsertSong>, done: nat, base: map<Id, Song>, songs: map<Id, Song>, songs': map<Id, Song>,
                         created: seq<Song>, picked: seq<nat>)
    requires BatchSoFar(items, done, base, songs, created, picked) && done < |items|
    requires forall k :: k in songs ==> k in songs' && songs'[k] == songs[k]
    requires !SongModel.Acceptable(items[done])
    ensures BatchSoFar(items, done + 1, base, songs', created, picked)
  {
    forall k | k in base ensures k in songs' && songs'[k] == base[k] {
    }
    forall j | 0 <= j < |created| ensures created[j].id in songs' && songs'[created[j].id] == created[j] {
    }
    forall i | 0 <= i < done + 1 && i !in picked ensures !SongModel.Acceptable(items[i]) {
    }
  }

  /** One more item tried and kept, with its item's index. */
  lemma BatchStepKept(items: seq<InsertSong>, done: nat, base: map<Id, Song>, songs: map<Id, Song>, songs': map<Id, Song>,
                      created: seq<Song>, picked: seq<nat>, s: Song)
    requires BatchSoFar(items, done, base, songs, created, picked) && done < |items|
    requires forall k :: k in songs ==> k in songs' && songs'[k] == songs[k]
    requires s.spotifyId == Text.Trim(items[done].spotifyId) && s.id in songs' && songs'[s.id] == s
    ensures BatchSoFar(items, done + 1, base, songs', created + [s], picked + [done])
  {
    var c, q := created + [s], picked + [done];
    forall j | 0 <= j < |c|
      ensures c[j].spotifyId == Text.Trim(items[q[j]].spotifyId) && c[j].id in songs' && songs'[c[j].id] == c[j]
    {
      if j < |created| {
        assert c[j] == created[j] && q[j] == picked[j];
      }
    }
    forall j, j' | 0 <= j < j' < |q| ensures q[j] < q[j'] {
      assert q[j] == picked[j];
    }
    forall i | 0 <= i < done + 1 && i !in q ensures !SongModel.Acceptable(items[i]) {
      assert forall j :: 0 <= j < |picked| ==> q[j] == picked[j];
    }
  }

  /**
   * Why each skipped item was skipped beyond failing validation: when it was
   * tried, no song stored before the batch and no song an earlier item
   * returned held its trimmed `spotifyId` (otherwise `createSong` would have
   * returned that song without validating).
   */
  ghost predicate SkippedWereFree(items: seq<InsertSong>, done: nat, base: map<Id, Song>, created: seq<Song>, picked: seq<nat>)
    requires done <= |items| && |picked| == |created|
  {
    forall i :: 0 <= i < done && i !in picked ==>
      && (forall t :: t in base.Values ==> t.spotifyId != Text.Trim(items[i].spotifyId))
      && (forall j :: 0 <= j < |created| && picked[j] < i ==> created[j].spotifyId != Text.Trim(items[i].spotifyId))
  }

  /** A skipped item: nothing in the store held its key, so nothing from before the batch or earlier in it did. */
  lemma SkippedWereFreeSkip(items: seq<InsertSong>, done: nat, base: map<Id, Song>, songs: map<Id, Song>,
                            created: seq<Song>, picked: seq<nat>)
    requires BatchSoFar(items, done, base, songs, created, picked) && done < |items|
    requires SkippedWereFree(items, done, base, created, picked)
    requires forall t :: t in songs.Values ==> t.spotifyId != Text.Trim(items[done].spotifyId)
    ensures SkippedWereFree(items, done + 1, base, created, picked)
  {
    var key := Text.Trim(items[done].spotifyId);
    forall t | t in base.Values ensures t.spotifyId != key {
      var k :| k in base && base[k] == t;
      assert songs[k] == t;
    }
    forall j | 0 <= j < |created| && picked[j] < done ensures created[j].spotifyId != key {
      assert songs[created[j].id] == created[j];
    }
  }

  /** A kept item: an earlier skipped item is still free of every song returned before it. */
  lemma SkippedWereFreeKeep(items: seq<InsertSong>, done: nat, base: map<Id, Song>, songs: map<Id, Song>,
                            created: seq<Song>, picked: seq<nat>, s: Song)
    requires BatchSoFar(items, done, base, songs, created, picked) && done < |items|
    requires SkippedWereFree(items, done, base, created, picked)
    ensures SkippedWereFree(items, done + 1, base, created + [s], picked + [done])
  {
    var c, q := created + [s], picked + [done];
    forall i | 0 <= i < done + 1 && i !in q
      ensures forall j :: 0 <= j < |c| && q[j] < i ==> c[j].spotifyId != Text.Trim(items[i].spotifyId)
    {
      assert i != done && i !in picked;
      forall j | 0 <= j < |c| && q[j] < i ensures c[j].spotifyId != Text.Trim(items[i].spotifyId) {
        assert j < |created| && c[j] == created[j] && q[j] == picked[j];
      }
    }
  }

  /** One more item tried: the store gained the id of a created song and nothing else. */
  lemma BatchKeysStep(base: map<Id, Song>, songs: map<Id, Song>, songs': map<Id, Song>, created: seq<Song>, r: Result<Song>)
    requires songs.Keys == base.Keys + IdsOf(created)
    requires songs'.Keys == songs.Keys + (if r.Ok? then {r.value.id} else {})
    ensures r.Ok? ==> songs'.Keys == base.Keys + IdsOf(created + [r.value])
    ensures r.Err? ==> songs'.Keys == base.Keys + IdsOf(created)
  {
    if r.Ok? {
      IdsOfAppend(created, r.value);
    }
  }

  /**
   * What each returned song is: a song stored before the batch began, the
   * same song an earlier item of the batch returned, or a new song built by
   * `MakeSong` from its own item's validated fields.
   */
  ghost predicate BatchMade(items: seq<InsertSong>, base: map<Id, Song>, created: seq<Song>, picked: seq<nat>, now: nat)
    requires |picked| == |created| && forall j :: 0 <= j < |picked| ==> picked[j] < |items|
  {
    forall j :: 0 <= j < |created| ==>
      || created[j] in base.Values
      || (exists j' :: 0 <= j' < j && created[j'] == created[j])
      || (SongModel.Acceptable(items[picked[j]])
          && created[j] == SongModel.MakeSong(created[j].id, SongModel.Normalize(items[picked[j]]), now))
  }

  /** One more item created: the song `createSong` returned is one of the three kinds. */
  lemma BatchMadeStep(items: seq<InsertSong>, base: map<Id, Song>, songs: map<Id, Song>, created: seq<Song>,
                      picked: seq<nat>, i: nat, now: nat, s: Song)
    requires |picked| == |created| && forall j :: 0 <= j < |picked| ==> picked[j] < |items|
    requires i < |items| && BatchMade(items, base, created, picked, now)
    requires songs.Keys == base.Keys + IdsOf(created)
    requires forall k :: k in base ==> songs[k] == base[k]
    requires forall j :: 0 <= j < |created| ==> created[j].id in songs && songs[created[j].id] == created[j]
    requires || s in songs.Values
             || (SongModel.Acceptable(items[i]) && s == SongModel.MakeSong(s.id, SongModel.Normalize(items[i]), now))
    ensures BatchMade(items, base, created + [s], picked + [i], now)
  {
    var c, q := created + [s], picked + [i];
    forall j | 0 <= j < |c|
      ensures || c[j] in base.Values
              || (exists j' :: 0 <= j' < j && c[j'] == c[j])
              || (SongModel.Acceptable(items[q[j]]) && c[j] == SongModel.MakeSong(c[j].id, SongModel.Normalize(items[q[j]]), now))
    {
      if j < |created| {
        assert c[j] == created[j] && q[j] == picked[j];
        if exists j' :: 0 <= j' < j && created[j'] == created[j] {
          var j' :| 0 <= j' < j && created[j'] == created[j];
          assert c[j'] == c[j];
        }
      } else if s in songs.Values {
        var k :| k in songs && songs[k] == s;
        if k in base {
          assert c[j] in base.Values;
        } else {
          var j' :| 0 <= j' < |created| && created[j'].id == k;
          assert c[j'] == c[j];
        }
      }
    }
  }

  /** The ids of a run of songs. */
  function IdsOf(songs: seq<Song>): set<Id> {
    set j | 0 <= j < |songs| :: songs[j].id
  }

  lemma IdsOfAppend(songs: seq<Song>, s: Song)
    ensures IdsOf(songs + [s]) == IdsOf(songs) + {s.id}
  {
    var t := songs + [s];
    forall k | k in IdsOf(t) ensures k in IdsOf(songs) + {s.id} {
      var j :| 0 <= j < |t| && t[j].id == k;
      if j < |songs| {
        assert songs[j] == t[j];
      }
    }
    forall k | k in IdsOf(songs) ensures k in IdsOf(t) {
      var j :| 0 <= j < |songs| && songs[j].id == k;
      assert t[j] == songs[j];
    }
    assert t[|songs|] == s;
  }

  /** The batch's `try` around `createSong` for item `i`: a failure is caught and the item skipped. */
  method BatchNext(db: Db, items: seq<InsertSong>, i: nat, now: nat, ghost base: map<Id, Song>,
                   created: seq<Song>, ghost picked: seq<nat>) returns (created': seq<Song>, ghost picked': seq<nat>)
    requires db.Valid() && i < |items| && BatchSoFar(items, i, base, db.songs, created, picked)
    requires db.songs.Keys == base.Keys + IdsOf(created)
    requires BatchMade(items, base, created, picked, now)
    requires SkippedWereFree(items, i, base, created, picked)
    modifies db
    ensures db.Valid()
    ensures db.users == old(db.users) && db.playlists == old(db.playlists)
    ensures BatchSoFar(items, i + 1, base, db.songs, created', picked')
    ensures db.songs.Keys == base.Keys + IdsOf(created')
    ensures BatchMade(items, base, created', picked', now)
    ensures SkippedWereFree(items, i + 1, base, created', picked')
  {
    ghost var before := db.songs;
    ValidIdsIssued(db);
    var r := CreateSong(db, items[i], now);
    BatchKeysStep(base, before, db.songs, created, r);
    if r.Ok? {
      BatchStepKept(items, i, base, before, db.songs, created, picked, r.value);
      BatchMadeStep(items, base, before, created, picked, i, now, r.value);
      SkippedWereFreeKeep(items, i, base, before, created, picked, r.value);
    } else {
      BatchStepSkipped(items, i, base, before, db.songs, created, picked);
      SkippedWereFreeSkip(items, i, base, before, created, picked);
    }
    if r.Ok? {
      created', picked' := created + [r.value], picked + [i];
    } else {
      created', picked' := created, picked;
    }
  }

  /** The batch's loop over the items, establishing the batch predicates for all of them. */
  method BatchLoop(db: Db, items: seq<InsertSong>, now: nat) returns (created: seq<Song>, ghost picked: seq<nat>)
    requires db.Valid()
    modifies db
    ensures db.Valid()
    ensures db.users == old(db.users) && db.playlists == old(db.playlists)
    ensures BatchSoFar(items, |items|, old(db.songs), db.songs, created, picked)
    ensures db.songs.Keys == old(db.songs).Keys + IdsOf(created)
    ensures BatchMade(items, old(db.songs), created, picked, now)
    ensures SkippedWereFree(items, |items|, old(db.songs), created, picked)
  {
    created := [];
    picked := [];
    var i := 0;
    while i < |items|
      invariant 0 <= i <= |items|
      invariant db.Valid()
      invariant db.users == old(db.users) && db.playlists == old(db.playlists)
      invariant BatchSoFar(items, i, old(db.songs), db.songs, created, picked)
      invariant db.songs.Keys == old(db.songs).Keys + IdsOf(created)
      invariant BatchMade(items, old(db.songs), created, picked, now)
      invariant SkippedWereFree(items, i, old(db.songs), created, picked)
    {
      created, picked := BatchNext(db, items, i, now, old(db.songs), created, picked);
      i := i + 1;
    }
  }

  /**
   * `batchCreateSongs`: `createSong` on each item in turn; an item whose
   * creation fails is skipped and the batch goes on. `picked` names, for
   * each returned song, the item it came from.
   */
  method BatchCreateSongs(db: Db, items: seq<InsertSong>, now: nat) returns (created: seq<Song>, ghost picked: seq<nat>)
    requires db.Valid()
    modifies db
    ensures db.Valid()
    ensures db.users == old(db.users) && db.playlists == old(db.playlists)
    ensures forall k :: k in old(db.songs) ==> k in db.songs && db.songs[k] == old(db.songs[k])
    ensures |picked| == |created| <= |items|
    ensures forall j :: 0 <= j < |picked| ==> picked[j] < |items|
    ensures forall j, j' :: 0 <= j < j' < |picked| ==> picked[j] < picked[j']
    ensures forall j :: 0 <= j < |created| ==>
      && created[j].spotifyId == Text.Trim(items[picked[j]].spotifyId)
      && created[j].id in db.songs && db.songs[created[j].id] == created[j]
    ensures forall i :: 0 <= i < |items| && i !in picked ==> SongModel.Validate(items[i]).Err?
    ensures forall i :: 0 <= i < |items| && i !in picked ==>
      && (forall t :: t in old(db.songs).Values ==> t.spotifyId != Text.Trim(items[i].spotifyId))
      && (forall j :: 0 <= j < |created| && picked[j] < i ==> created[j].spotifyId != Text.Trim(items[i].spotifyId))
    ensures forall j, j' :: 0 <= j < |created| && 0 <= j' < |created| && created[j].spotifyId == created[j'].spotifyId ==>
      created[j] == created[j']
    ensures db.songs.Keys == old(db.songs).Keys + IdsOf(created)
    ensures forall j :: 0 <= j < |created| ==>
      || created[j] in old(db.songs).Values
      || (exists j' :: 0 <= j' < j && created[j'] == created[j])
      || (SongModel.Validate(items[picked[j]]).Ok?
          && created[j] == SongModel.MakeSong(created[j].id, SongModel.Validate(items[picked[j]]).value, now))
  {
    created, picked := BatchLoop(db, items, now);
    forall i | 0 <= i < |items| && i !in picked ensures SongModel.Validate(items[i]).Err? {
      SongModel.AcceptableValidates(items[i]);
    }
    forall j | 0 <= j < |created| && SongModel.Acceptable(items[picked[j]])
      ensures SongModel.Validate(items[picked[j]]) == Ok(SongModel.Normalize(items[picked[j]]))
    {
      SongModel.AcceptableValidates(items[picked[j]]);
    }
    forall j, j' | 0 <= j < |created| && 0 <= j' < |created| && created[j].spotifyId == created[j'].spotifyId
      ensures created[j] == created[j']
    {
      assert created[j] in db.songs.Values && created[j'] in db.songs.Values;
      AtMostOneSongPerSpotifyId(db, created[j], created[j']);
    }
  }

  // ----- advanced search ------------------------------------------------------

  /** The filters `advancedSearch` accepts; every one may be missing. */
  datatype Filters = Filters(
    query: Option<string>, artist: Option<string>, album: Option<string>,
    minDuration: Option<int>, maxDuration: Option<int>, page: Option<int>, limit: Option<int>)

  /** The query `advancedSearch` builds: each condition is there only when its filter was truthy. */
  datatype SongQuery = SongQuery(
    text: Option<string>, artist: Option<string>, album: Option<string>,
    minDuration: Option<int>, maxDuration: Option<int>)

  /** A JavaScript string is truthy iff it is not empty. */
  function Truthy(o: Option<string>): (r: Option<string>)
    ensures r.Some? <==> o.Some? && o.value != []
    ensures r.Some? ==> r == o
  {
    if o.Some? && o.value != [] then o else None
  }

  /** A JavaScript number is truthy iff it is not 0. */
  function TruthyNumber(o: Option<int>): (r: Option<int>)
    ensures r.Some? <==> o.Some? && o.value != 0
    ensures r.Some? ==> r == o
  {
    if o.Some? && o.value != 0 then o else None
  }

  function BuildQuery(f: Filters): SongQuery {
    SongQuery(Truthy(f.query), Truthy(f.artist), Truthy(f.album), TruthyNumber(f.minDuration), TruthyNumber(f.maxDuration))
  }

  /** The filter of `advancedSearch`. */
  function QueryFilter(q: SongQuery): Song -> bool {
    (s: Song) => MatchesQuery(s, q)
  }

  /** The conditions of a query, all of which must hold. */
  predicate MatchesQuery(s: Song, q: SongQuery) {
    && (q.text.Some? ==> MatchesText(s, q.text.value))
    && (q.artist.Some? ==> Text.ContainsIgnoreCase(s.artist, q.artist.value))
    && (q.album.Some? ==> Text.ContainsIgnoreCase(s.album, q.album.value))
    && (q.minDuration.Some? ==> s.duration >= q.minDuration.value)
    && (q.maxDuration.Some? ==> s.duration <= q.maxDuration.value)
  }

  /**
   * What a song must satisfy to be found: the artist and album filters are
   * conjoined with the text filter, and a duration bound of 0 is no bound.
   */
  lemma AdvancedSearchConditions(s: Song, f: Filters)
    ensures MatchesQuery(s, BuildQuery(f)) <==>
      && (f.query.Some? && f.query.value != [] ==> MatchesText(s, f.query.value))
      && (f.artist.Some? && f.artist.value != [] ==> Text.ContainsIgnoreCase(s.artist, f.artist.value))
      && (f.album.Some? && f.album.value != [] ==> Text.ContainsIgnoreCase(s.album, f.album.value))
      && (f.minDuration.Some? && f.minDuration.value != 0 ==> s.duration >= f.minDuration.value)
      && (f.maxDuration.Some? && f.maxDuration.value != 0 ==> s.duration <= f.maxDuration.value)
  {
  }

  /** A bound of 0 builds the same query as no bound. */
  lemma ZeroBoundIgnored(f: Filters)
    ensures BuildQuery(f.(minDuration := Some(0))) == BuildQuery(f.(minDuration := None))
    ensures BuildQuery(f.(maxDuration := Some(0))) == BuildQuery(f.(maxDuration := None))
  {
  }

  /**
   * `advancedSearch`: `page` and `limit` default to 1 and 20 when falsy;
   * the matches are ordered by name.
   */
  function AdvancedSearch(db: Db, f: Filters): (r: Result<Page<Song>>)
    requires db.IdsIssued()
    reads db
    ensures r.Ok? <==> Offset(OrDefault(f.page, 1), OrDefault(f.limit, 20)) >= 0
    ensures r.Ok? ==> r.value.page == OrDefault(f.page, 1) && r.value.limit == OrDefault(f.limit, 20)
    ensures r.Ok? ==> r.value.total == |QueryIds(db, QueryFilter(BuildQuery(f)))|
    ensures r.Ok? ==> r.value.totalPages == CeilDiv(r.value.total, r.value.limit)
    ensures r.Ok? ==> forall s :: s in r.value.data ==> s in db.songs.Values && MatchesQuery(s, BuildQuery(f))
    ensures r.Ok? ==> forall i :: 0 < i < |r.value.data| ==> Sorting.LexLe(r.value.data[i - 1].name, r.value.data[i].name)
    ensures r.Ok? ==> |r.value.data| <= Abs(r.value.limit)
    ensures r.Ok? ==>
      r.value.data == Window(Query(db, QueryFilter(BuildQuery(f)), ByName()), Offset(r.value.page, r.value.limit), Abs(r.value.limit))
  {
    var page := OrDefault(f.page, 1);
    var limit := OrDefault(f.limit, 20);
    var q := BuildQuery(f);
    var p := QueryFilter(q);
    FindPage(db, p, ByName(), page, limit)
  }

  // ----- popularity and statistics --------------------------------------------

  /** The `songs` arrays of the given playlists, in order: what `$unwind` reads. */
  function SongLists(ps: seq<Playlist>): seq<seq<Id>> {
    seq(|ps|, i requires 0 <= i < |ps| => ps[i].songs)
  }

  /** The `songs` arrays of every stored playlist, in insertion order. */
  function PlaylistSongLists(db: Db): seq<seq<Id>>
    requires db.IdsIssued()
    reads db
  {
    SongLists(db.PlaylistScan())
  }

  /** One `$group` result: a song id and how many entries reference it. */
  datatype Group = Group(songId: Id, playlistCount: nat)

  /** A `$lookup` result joined to its count. */
  datatype PopularSong = PopularSong(song: Song, playlistCount: nat)

  /** `$unwind` then `$group` by id with `$sum: 1`: one group per referenced id, in order of first reference. */
  function Groups(lists: seq<seq<Id>>): (r: seq<Group>)
    ensures forall g :: g in r ==> g.playlistCount == Collection.Occurrences(lists, g.songId) && g.playlistCount > 0
    ensures forall id :: Collection.Occurrences(lists, id) > 0 ==> Group(id, Collection.Occurrences(lists, id)) in r
    ensures Collection.NoDuplicates(r)
  {
    var ids := Collection.Distinct(Collection.Flatten(lists));
    var r := seq(|ids|, i requires 0 <= i < |ids| => Group(ids[i], Collection.Occurrences(lists, ids[i])));
    assert forall i :: 0 <= i < |ids| ==> Collection.Occurrences(lists, ids[i]) > 0 by {
      forall i | 0 <= i < |ids| ensures Collection.Occurrences(lists, ids[i]) > 0 {
        assert ids[i] in Collection.Flatten(lists);
        var j :| 0 <= j < |lists| && ids[i] in lists[j];
      }
    }
    assert forall id :: Collection.Occurrences(lists, id) > 0 ==> Group(id, Collection.Occurrences(lists, id)) in r by {
      forall id | Collection.Occurrences(lists, id) > 0
        ensures Group(id, Collection.Occurrences(lists, id)) in r
      {
        assert id in Collection.Flatten(lists);
        var i :| 0 <= i < |ids| && ids[i] == id;
        assert r[i] == Group(id, Collection.Occurrences(lists, id));
      }
    }
    r
  }

  /** `$sort: {playlistCount: -1}`. */
  function MostReferencedFirst(): (le: (Group, Group) -> bool)
    ensures Sorting.Total(le)
    ensures forall a, b :: le(a, b) == (a.playlistCount >= b.playlistCount)
  {
    Sorting.ByKeyDescTotal((g: Group) => g.playlistCount);
    Sorting.ByKeyDesc((g: Group) => g.playlistCount)
  }

  /** `$lookup` then `$unwind`: each group joined to its song; a group whose song is gone is dropped. */
  function LookupAll(songs: map<Id, Song>, gs: seq<Group>): (r: seq<PopularSong>)
    ensures |r| <= |gs|
    ensures forall e :: e in r ==> exists g :: g in gs && g.songId in songs && e == PopularSong(songs[g.songId], g.playlistCount)
    ensures (forall g :: g in gs ==> g.songId in songs) ==>
      |r| == |gs| && forall i :: 0 <= i < |gs| ==> r[i] == PopularSong(songs[gs[i].songId], gs[i].playlistCount)
  {
    if gs == [] then []
    else
      assert forall g :: g in gs[1..] ==> g in gs;
      (if gs[0].songId in songs then [PopularSong(songs[gs[0].songId], gs[0].playlistCount)] else [])
      + LookupAll(songs, gs[1..])
  }

  /** `$group` then `$sort`: every referenced id once with its count, most referenced first. */
  function Ranked(lists: seq<seq<Id>>): (r: seq<Group>)
    ensures forall g :: g in r ==> g.playlistCount == Collection.Occurrences(lists, g.songId) && g.playlistCount > 0
    ensures forall id :: Collection.Occurrences(lists, id) > 0 ==> Group(id, Collection.Occurrences(lists, id)) in r
    ensures forall i, j :: 0 <= i < j < |r| ==> r[i].songId != r[j].songId
    ensures Sorting.SortedBy(r, MostReferencedFirst())
  {
    var groups := Groups(lists);
    var r := Sorting.SortBy(groups, MostReferencedFirst());
    Collection.PermutationNoDuplicates(groups, r);
    assert forall g :: g in r <==> g in groups by {
      forall g ensures g in r <==> g in groups {
        Sorting.SortByKeepsElements(groups, MostReferencedFirst(), g);
      }
    }
    forall i, j | 0 <= i < j < |r| ensures r[i].songId != r[j].songId {
      assert r[i] != r[j] && r[i] in r && r[j] in r;
    }
    r
  }

  /** MongoDB refuses a `$limit` that is not positive. */
  const LimitMustBePositive := "the limit must be positive"

  /**
   * The aggregation pipeline over the playlists' song lists: `$unwind`,
   * `$group`, `$sort`, `$limit`, then `$lookup` and `$unwind` against `songs`.
   */
  function Popular(lists: seq<seq<Id>>, songs: map<Id, Song>, limit: int): (r: Result<seq<PopularSong>>)
    requires forall k :: k in songs ==> songs[k].id == k
    ensures r.Err? <==> limit <= 0
    ensures r.Ok? ==> |r.value| <= limit
    ensures r.Ok? ==> forall e :: e in r.value ==>
      && e.song.id in songs && songs[e.song.id] == e.song
      && e.playlistCount == Collection.Occurrences(lists, e.song.id) && e.playlistCount > 0
  {
    if limit <= 0 then Err(LimitMustBePositive)
    else
      var ranked := Ranked(lists);
      var top := Text.Take(ranked, limit);
      assert forall g :: g in top ==> g in ranked;
      Ok(LookupAll(songs, top))
  }

  /** `getPopularSongs`: the pipeline over every stored playlist. */
  function GetPopularSongs(db: Db, limit: int): (r: Result<seq<PopularSong>>)
    requires db.IdsIssued()
    reads db
    ensures r.Err? <==> limit <= 0
    ensures r.Ok? ==> |r.value| <= limit
    ensures r.Ok? ==> forall e :: e in r.value ==>
      && e.song.id in db.songs && db.songs[e.song.id] == e.song
      && e.playlistCount == Collection.Occurrences(PlaylistSongLists(db), e.song.id) && e.playlistCount > 0
  {
    Popular(PlaylistSongLists(db), db.songs, limit)
  }

  /** A sorted run of groups never has a larger count after a smaller one. */
  lemma {:induction false} SortedGroupsOrdered(s: seq<Group>, i: int, j: int)
    requires Sorting.SortedBy(s, MostReferencedFirst())
    requires 0 <= i <= j < |s|
    ensures s[i].playlistCount >= s[j].playlistCount
  {
    if i < j {
      SortedGroupsOrdered(s, i, j - 1);
      assert MostReferencedFirst()(s[j - 1], s[j]);
    }
  }

  /** When every referenced id has a song, the pipeline's i-th entry is the i-th ranked group joined to its song. */
  lemma PopularIsRankedPrefix(lists: seq<seq<Id>>, songs: map<Id, Song>, limit: int)
    requires limit > 0
    requires forall k :: k in songs ==> songs[k].id == k
    requires forall id :: Collection.Occurrences(lists, id) > 0 ==> id in songs
    ensures var r := Popular(lists, songs, limit).value; var ranked := Ranked(lists);
      && |r| == (if |ranked| < limit then |ranked| else limit)
      && (forall i :: 0 <= i < |r| ==>
            r[i] == PopularSong(songs[ranked[i].songId], ranked[i].playlistCount) && r[i].song.id == ranked[i].songId)
  {
    var top := Text.Take(Ranked(lists), limit);
    assert forall g :: g in top ==> g in Ranked(lists);
  }

  /**
   * When every referenced id has a song, the pipeline ranks: counts never
   * increase, no song comes twice, and a referenced song left out was cut
   * by the limit, every song kept being referenced at least as often.
   */
  lemma PopularRanked(lists: seq<seq<Id>>, songs: map<Id, Song>, limit: int)
    requires limit > 0
    requires forall k :: k in songs ==> songs[k].id == k
    requires forall id :: Collection.Occurrences(lists, id) > 0 ==> id in songs
    ensures var r := Popular(lists, songs, limit).value;
      && (forall i, j :: 0 <= i < j < |r| ==> r[i].playlistCount >= r[j].playlistCount)
      && (forall i, j :: 0 <= i < j < |r| ==> r[i].song.id != r[j].song.id)
      && (forall id :: Collection.Occurrences(lists, id) > 0 && (forall i :: 0 <= i < |r| ==> r[i].song.id != id) ==>
            (|r| == limit && forall i :: 0 <= i < |r| ==> r[i].playlistCount >= Collection.Occurrences(lists, id)))
  {
    var ranked := Ranked(lists);
    var r := Popular(lists, songs, limit).value;
    PopularIsRankedPrefix(lists, songs, limit);
    PrefixRanks(ranked, r);
    forall id | Collection.Occurrences(lists, id) > 0 && (forall i :: 0 <= i < |r| ==> r[i].song.id != id)
      ensures |r| == limit && forall i :: 0 <= i < |r| ==> r[i].playlistCount >= Collection.Occurrences(lists, id)
    {
      CutPastLimit(ranked, r, limit, Group(id, Collection.Occurrences(lists, id)));
    }
  }

  /** A prefix of a ranking without repeated ids keeps its order and its distinctness. */
  lemma PrefixRanks(ranked: seq<Group>, r: seq<PopularSong>)
    requires Sorting.SortedBy(ranked, MostReferencedFirst())
    requires forall i, j :: 0 <= i < j < |ranked| ==> ranked[i].songId != ranked[j].songId
    requires |r| <= |ranked|
    requires forall i :: 0 <= i < |r| ==> r[i].playlistCount == ranked[i].playlistCount && r[i].song.id == ranked[i].songId
    ensures forall i, j :: 0 <= i < j < |r| ==> r[i].playlistCount >= r[j].playlistCount
    ensures forall i, j :: 0 <= i < j < |r| ==> r[i].song.id != r[j].song.id
  {
    forall i, j | 0 <= i < j < |r| ensures r[i].playlistCount >= r[j].playlistCount {
      SortedGroupsOrdered(ranked, i, j);
    }
  }

  /**
   * Of a prefix of a ranking cut at `limit`, a group missing from it lies
   * past the cut: the prefix is full and ranks every entry at least as high.
   */
  lemma CutPastLimit(ranked: seq<Group>, r: seq<PopularSong>, limit: int, g: Group)
    requires Sorting.SortedBy(ranked, MostReferencedFirst())
    requires |r| == (if |ranked| < limit then |ranked| else limit)
    requires forall i :: 0 <= i < |r| ==> r[i].playlistCount == ranked[i].playlistCount && r[i].song.id == ranked[i].songId
    requires g in ranked && forall i :: 0 <= i < |r| ==> r[i].song.id != g.songId
    ensures |r| == limit && forall i :: 0 <= i < |r| ==> r[i].playlistCount >= g.playlistCount
  {
    var k :| 0 <= k < |ranked| && ranked[k] == g;
    assert forall i :: 0 <= i < |r| ==> ranked[i].songId != g.songId;
    forall i | 0 <= i < |r| ensures r[i].playlistCount >= g.playlistCount {
      SortedGroupsOrdered(ranked, i, k);
    }
  }

  /** In a valid store every id a playlist lists is the id of a stored song. */
  lemma ReferencedSongsStored(db: Db)
    requires db.Valid()
    ensures forall id :: Collection.Occurrences(PlaylistSongLists(db), id) > 0 ==> id in db.songs
  {
    var lists := PlaylistSongLists(db);
    forall id | Collection.Occurrences(lists, id) > 0 ensures id in db.songs {
      var i :| 0 <= i < |lists| && id in lists[i];
      assert db.PlaylistScan()[i] in db.PlaylistScan();
    }
  }

  /** On a valid store `getPopularSongs` ranks, as `PopularRanked` states. */
  lemma PopularSongsRanked(db: Db, limit: int)
    requires db.Valid() && limit > 0
    ensures var r := GetPopularSongs(db, limit).value;
      && (forall i, j :: 0 <= i < j < |r| ==> r[i].playlistCount >= r[j].playlistCount)
      && (forall i, j :: 0 <= i < j < |r| ==> r[i].song.id != r[j].song.id)
  {
    ReferencedSongsStored(db);
    PopularRanked(PlaylistSongLists(db), db.songs, limit);
  }

  /** The filter `{songs: songId}`: the playlists whose list holds the song. */
  function Lists(songId: Id): (p: Playlist -> bool)
    ensures forall q :: p(q) <==> songId in q.songs
  {
    (q: Playlist) => songId in q.songs
  }

  /** Counting the song lists that hold `id` counts the playlists whose list holds it. */
  lemma {:induction false} SongListsCount(ps: seq<Playlist>, id: Id)
    ensures Collection.ListsContaining(SongLists(ps), id) == |Collection.Filter(ps, Lists(id))|
  {
    if ps != [] {
      assert SongLists(ps)[1..] == SongLists(ps[1..]);
      SongListsCount(ps[1..], id);
    }
  }

  /** `find({songs: songId})`: the playlists that list the song, in insertion order. */
  function Listing(playlists: map<Id, Playlist>, nextId: nat, songId: Id): (r: seq<Playlist>)
    requires forall k :: k in playlists ==> k < nextId
    ensures forall p :: p in r <==> p in playlists.Values && songId in p.songs
    ensures |r| == |set k | k in playlists && songId in playlists[k].songs|
  {
    var r := Collection.Filter(Collection.Scan(playlists, nextId), Lists(songId));
    Collection.ScanFilterCount(playlists, nextId, Lists(songId));
    assert Collection.Chosen(playlists, nextId, Lists(songId)) == set k | k in playlists && songId in playlists[k].songs;
    r
  }

  /**
   * Without repetitions inside a playlist, the entries `$group` counts for
   * a song are the playlists `countDocuments({songs: songId})` counts.
   */
  lemma OccurrencesCountPlaylists(playlists: map<Id, Playlist>, nextId: nat, songId: Id)
    requires forall k :: k in playlists ==> k < nextId && Collection.NoDuplicates(playlists[k].songs)
    ensures Collection.Occurrences(SongLists(Collection.Scan(playlists, nextId)), songId) == |Listing(playlists, nextId, songId)|
  {
    var scan := Collection.Scan(playlists, nextId);
    var lists := SongLists(scan);
    forall i | 0 <= i < |lists| ensures Collection.NoDuplicates(lists[i]) {
      assert scan[i] in scan;
    }
    Collection.OccurrencesOfDuplicateFree(lists, songId);
    SongListsCount(scan, songId);
  }

  /** A populated owner: `select: 'name username'`. */
  datatype OwnerSummary = OwnerSummary(id: Id, name: string, username: string)

  /** A playlist reduced to `select('name owner')`, its owner populated (`null` when the user is gone). */
  datatype PlaylistSummary = PlaylistSummary(id: Id, name: string, owner: Option<OwnerSummary>)

  datatype SongStats = SongStats(song: Song, playlistCount: nat, playlists: seq<PlaylistSummary>, createdAt: nat, updatedAt: nat)

  function Summary(users: map<Id, User>, p: Playlist): (r: PlaylistSummary)
    ensures r.id == p.id && r.name == p.name
    ensures r.owner.Some? <==> p.owner in users
    ensures r.owner.Some? ==> r.owner.value == OwnerSummary(p.owner, users[p.owner].name, users[p.owner].username)
  {
    PlaylistSummary(p.id, p.name,
      if p.owner in users then Some(OwnerSummary(p.owner, users[p.owner].name, users[p.owner].username)) else None)
  }

  /**
   * `getSongStats`: `null` for an unknown song; otherwise the song, the
   * number of playlists that list it and a summary of each of them.
   */
  function GetSongStats(db: Db, songId: Id): (r: Option<SongStats>)
    requires db.IdsIssued()
    reads db
    ensures r.None? <==> songId !in db.songs
    ensures r.Some? ==> r.value.song == db.songs[songId]
    ensures r.Some? ==> r.value.createdAt == r.value.song.createdAt && r.value.updatedAt == r.value.song.updatedAt
    ensures r.Some? ==> r.value.playlistCount == |set k | k in db.playlists && songId in db.playlists[k].songs|
    ensures r.Some? ==> |r.value.playlists| == r.value.playlistCount
    ensures r.Some? ==> forall e :: e in r.value.playlists ==>
      exists p :: p in db.playlists.Values && songId in p.songs && e == Summary(db.users, p)
  {
    if songId !in db.songs then None
    else
      var listing := Listing(db.playlists, db.nextId, songId);
      var users := db.users;
      var summaries := seq(|listing|, i requires 0 <= i < |listing| => Summary(users, listing[i]));
      assert forall e :: e in summaries ==> exists i :: 0 <= i < |listing| && e == Summary(users, listing[i]);
      var song := db.songs[songId];
      Some(SongStats(song, |listing|, summaries, song.createdAt, song.updatedAt))
  }

  /** The count `getPopularSongs` reports for a song is the count `getSongStats` reports for it. */
  lemma PopularCountIsStatsCount(db: Db, limit: int, e: PopularSong)
    requires db.Valid() && limit > 0
    requires e in GetPopularSongs(db, limit).value
    ensures GetSongStats(db, e.song.id).Some?
    ensures e.playlistCount == GetSongStats(db, e.song.id).value.playlistCount
  {
    OccurrencesCountPlaylists(db.playlists, db.nextId, e.song.id);
  }
}
