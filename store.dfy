/**
 * The MongoDB database the services share: the `users`, `playlists` and
 * `songs` collections, keyed by id. Ids come from one counter, so ascending
 * id order is the order in which documents were inserted, which is the order
 * a scan returns them in.
 *
 * The invariants are stated on the collections as values, one collection at
 * a time, so that an operation that rewrites one collection re-establishes
 * only that collection's part.
 */
module Store {
  import opened Wrappers
  import opened Schema
  import Collection
  import PlaylistModel
  import SongModel

  // ----- invariants of the collections ----------------------------------------

  /**
   * Every user is stored under its own id, below the counter, with a
   * username, an e-mail and a name. The password is not constrained: an
   * update without validators may store any hash.
   */
  ghost predicate UsersWellFormed(users: map<Id, User>, nextId: nat) {
    forall k :: k in users ==>
      && k < nextId && users[k].id == k
      && users[k].username != [] && users[k].email != [] && users[k].name != []
  }

  /** The unique indexes on `email` and `username`. */
  ghost predicate UserKeysUnique(users: map<Id, User>) {
    && (forall a, b :: a in users && b in users && users[a].email == users[b].email ==> a == b)
    && (forall a, b :: a in users && b in users && users[a].username == users[b].username ==> a == b)
  }

  /** Every song is stored under its own id, below the counter, and passed the song schema. */
  ghost predicate SongsWellFormed(songs: map<Id, Song>, nextId: nat) {
    forall k :: k in songs ==>
      k < nextId && songs[k].id == k && SongModel.ValidFields(SongModel.FieldsOf(songs[k]))
  }

  /** The unique index on `spotifyId`. */
  ghost predicate SpotifyIdsUnique(songs: map<Id, Song>) {
    forall a, b :: a in songs && b in songs && songs[a].spotifyId == songs[b].spotifyId ==> a == b
  }

  /** Every playlist is stored under its own id, below the counter, and passed the playlist schema. */
  ghost predicate PlaylistsWellFormed(playlists: map<Id, Playlist>, nextId: nat) {
    forall k :: k in playlists ==>
      k < nextId && playlists[k].id == k && PlaylistModel.ValidFields(PlaylistModel.FieldsOf(playlists[k]))
  }

  /** No playlist lists the same song twice. */
  ghost predicate SongListsDuplicateFree(playlists: map<Id, Playlist>) {
    forall k :: k in playlists ==> Collection.NoDuplicates(playlists[k].songs)
  }

  /** Every song a playlist lists is stored. */
  ghost predicate SongRefsResolve(playlists: map<Id, Playlist>, songs: map<Id, Song>) {
    forall k, s :: k in playlists && s in playlists[k].songs ==> s in songs
  }

  ghost predicate UsersValid(users: map<Id, User>, nextId: nat) {
    UsersWellFormed(users, nextId) && UserKeysUnique(users)
  }

  ghost predicate SongsValid(songs: map<Id, Song>, nextId: nat) {
    SongsWellFormed(songs, nextId) && SpotifyIdsUnique(songs)
  }

  ghost predicate PlaylistsValid(playlists: map<Id, Playlist>, songs: map<Id, Song>, nextId: nat) {
    PlaylistsWellFormed(playlists, nextId) && SongListsDuplicateFree(playlists) && SongRefsResolve(playlists, songs)
  }

  /** A playlist that may be stored next to `songs`. */
  ghost predicate StorablePlaylist(p: Playlist, songs: map<Id, Song>) {
    && PlaylistModel.ValidFields(PlaylistModel.FieldsOf(p))
    && Collection.NoDuplicates(p.songs)
    && (forall s :: s in p.songs ==> s in songs)
  }

  /** Handing out the next id keeps every collection valid. */
  lemma CounterAdvance(users: map<Id, User>, playlists: map<Id, Playlist>, songs: map<Id, Song>, nextId: nat)
    requires UsersValid(users, nextId) && SongsValid(songs, nextId) && PlaylistsValid(playlists, songs, nextId)
    ensures UsersValid(users, nextId + 1) && SongsValid(songs, nextId + 1) && PlaylistsValid(playlists, songs, nextId + 1)
    ensures nextId !in users && nextId !in songs && nextId !in playlists
  {
  }

  /** Storing a storable playlist under its own id keeps the playlists valid. */
  lemma PutPlaylist(playlists: map<Id, Playlist>, songs: map<Id, Song>, nextId: nat, p: Playlist)
    requires PlaylistsValid(playlists, songs, nextId)
    requires p.id < nextId && StorablePlaylist(p, songs)
    ensures PlaylistsValid(playlists[p.id := p], songs, nextId)
  {
  }

  /**
   * Storing a valid song under its own id keeps the songs valid, provided no
   * other song has its `spotifyId`, and keeps every playlist's references
   * resolving.
   */
  lemma PutSong(playlists: map<Id, Playlist>, songs: map<Id, Song>, nextId: nat, s: Song)
    requires SongsValid(songs, nextId) && PlaylistsValid(playlists, songs, nextId)
    requires s.id < nextId && SongModel.ValidFields(SongModel.FieldsOf(s))
    requires forall k :: k in songs && k != s.id ==> songs[k].spotifyId != s.spotifyId
    ensures SongsValid(songs[s.id := s], nextId) && PlaylistsValid(playlists, songs[s.id := s], nextId)
  {
  }

  /**
   * Storing a user with its required fields under its own id keeps the users
   * valid, provided no other user has its e-mail or its username.
   */
  lemma PutUser(users: map<Id, User>, nextId: nat, u: User)
    requires UsersValid(users, nextId)
    requires u.id < nextId && u.username != [] && u.email != [] && u.name != []
    requires forall k :: k in users && k != u.id ==> users[k].email != u.email && users[k].username != u.username
    ensures UsersValid(users[u.id := u], nextId)
  {
  }

  class Db {
    var users: map<Id, User>
    var playlists: map<Id, Playlist>
    var songs: map<Id, Song>
    /** The next id to hand out. */
    var nextId: nat

    constructor ()
      ensures users == map[] && playlists == map[] && songs == map[] && nextId == 0
      ensures Valid()
    {
      users := map[];
      playlists := map[];
      songs := map[];
      nextId := 0;
    }

    ghost predicate Valid()
      reads this
    {
      UsersValid(users, nextId) && SongsValid(songs, nextId) && PlaylistsValid(playlists, songs, nextId)
    }

    /** Every document is stored under its own id, and that id has been handed out. */
    ghost predicate IdsIssued()
      reads this
    {
      && (forall k :: k in users ==> k < nextId && users[k].id == k)
      && (forall k :: k in playlists ==> k < nextId && playlists[k].id == k)
      && (forall k :: k in songs ==> k < nextId && songs[k].id == k)
    }

    /** Hands out a fresh id; no document is touched. */
    method NewId() returns (id: Id)
      requires Valid()
      modifies this
      ensures id == old(nextId) && nextId == old(nextId) + 1
      ensures users == old(users) && playlists == old(playlists) && songs == old(songs)
      ensures Valid()
      ensures id !in users && id !in playlists && id !in songs
    {
      CounterAdvance(users, playlists, songs, nextId);
      id := nextId;
      nextId := nextId + 1;
    }

    /** The playlists in insertion order. */
    function PlaylistScan(): (r: seq<Playlist>)
      requires IdsIssued()
      reads this
      ensures forall p :: p in r <==> p in playlists.Values
    {
      var r := Collection.Scan(playlists, nextId);
      assert forall p :: p in playlists.Values ==> p in r;
      r
    }

    /** The songs in insertion order. */
    function SongScan(): (r: seq<Song>)
      requires IdsIssued()
      reads this
      ensures forall s :: s in r <==> s in songs.Values
    {
      var r := Collection.Scan(songs, nextId);
      assert forall s :: s in songs.Values ==> s in r;
      r
    }

    /** The song `findOne({spotifyId})` returns. */
    function SongWithSpotifyId(spotifyId: string): (r: Option<Song>)
      requires IdsIssued()
      reads this
      ensures r.Some? ==> r.value in songs.Values && r.value.spotifyId == spotifyId
      ensures r.None? <==> forall s :: s in songs.Values ==> s.spotifyId != spotifyId
    {
      Collection.FindFirst(SongScan(), (s: Song) => s.spotifyId == spotifyId)
    }

    /** The user `findOne({email})` returns. */
    function UserWithEmail(email: string): (r: Option<User>)
      requires IdsIssued()
      reads this
      ensures r.Some? ==> r.value in users.Values && r.value.email == email
      ensures r.None? <==> forall u :: u in users.Values ==> u.email != email
    {
      var scan := Collection.Scan(users, nextId);
      assert forall u :: u in users.Values ==> u in scan;
      Collection.FindFirst(scan, (u: User) => u.email == email)
    }

    /** The user `findOne({username})` returns. */
    function UserWithUsername(username: string): (r: Option<User>)
      requires IdsIssued()
      reads this
      ensures r.Some? ==> r.value in users.Values && r.value.username == username
      ensures r.None? <==> forall u :: u in users.Values ==> u.username != username
    {
      var scan := Collection.Scan(users, nextId);
      assert forall u :: u in users.Values ==> u in scan;
      Collection.FindFirst(scan, (u: User) => u.username == username)
    }
  }

  /** A valid store has handed out every id it holds. */
  lemma ValidIdsIssued(db: Db)
    requires db.Valid()
    ensures db.IdsIssued()
  {
  }
}
