/**
 * The records shared by client and server and the zod schemas that admit
 * request bodies: `insertUserSchema`, `loginUserSchema`,
 * `insertPlaylistSchema`, its partial `updatePlaylistSchema`, and
 * `insertSongSchema`. A body is a JSON object; parsing keeps the schema's
 * keys, drops every other key, and fails on a missing required key, on a
 * value of the wrong type (including `null` for an optional string) and on
 * a length outside the bounds.
 */
module Schema {
  import opened Wrappers
  import Text

  /** Document ids. Every collection draws them from one counter. */
  type Id = nat

  /** A JSON value as a request body carries it; numbers are integers here. */
  datatype Json = JString(str: string) | JNumber(num: int) | JBool(flag: bool) | JNull | JComposite

  type Body = map<string, Json>

  datatype User = User(
    id: Id, username: string, email: string, name: string, password: string,
    createdAt: nat, updatedAt: nat)

  /** A playlist: its owner's id and the ordered ids of its songs. */
  datatype Playlist = Playlist(
    id: Id, name: string, description: Option<string>, owner: Id, songs: seq<Id>,
    createdAt: nat, updatedAt: nat)

  datatype Song = Song(
    id: Id, spotifyId: string, name: string, artist: string, album: string, duration: int,
    imageUrl: Option<string>, previewUrl: Option<string>, createdAt: nat, updatedAt: nat)

  datatype InsertUser = InsertUser(username: string, email: string, password: string, name: string)
  datatype LoginUser = LoginUser(email: string, password: string)
  datatype InsertPlaylist = InsertPlaylist(name: string, description: Option<string>)
  datatype UpdatePlaylist = UpdatePlaylist(name: Option<string>, description: Option<string>)
  datatype InsertSong = InsertSong(
    spotifyId: string, name: string, artist: string, album: string, duration: int,
    imageUrl: Option<string>, previewUrl: Option<string>)
  /** `Partial<InsertSong>`: the fields an update sets. */
  datatype SongUpdate = SongUpdate(
    spotifyId: Option<string>, name: Option<string>, artist: Option<string>, album: Option<string>,
    duration: Option<int>, imageUrl: Option<string>, previewUrl: Option<string>)

  // ----- field readers ------------------------------------------------------

  /** A required `z.string()` field. */
  function RequiredString(b: Body, key: string): (r: Option<string>)
    ensures r.Some? <==> key in b && b[key].JString?
    ensures r.Some? ==> r.value == b[key].str
  {
    if key in b && b[key].JString? then Some(b[key].str) else None
  }

  /**
   * An optional `z.string().optional()` field: `Some(None)` when the key is
   * absent, `None` (a parse failure) when it holds anything but a string.
   */
  function OptionalString(b: Body, key: string): (r: Option<Option<string>>)
    ensures r.Some? <==> key !in b || b[key].JString?
    ensures r == Some(None) <==> key !in b
    ensures r.Some? && r.value.Some? ==> key in b && r.value.value == b[key].str
  {
    if key !in b then Some(None)
    else if b[key].JString? then Some(Some(b[key].str))
    else None
  }

  /** A required `z.number()` field. */
  function RequiredNumber(b: Body, key: string): (r: Option<int>)
    ensures r.Some? <==> key in b && b[key].JNumber?
    ensures r.Some? ==> r.value == b[key].num
  {
    if key in b && b[key].JNumber? then Some(b[key].num) else None
  }

  predicate LengthIn(s: string, lo: nat, hi: nat) {
    lo <= |s| <= hi
  }

  // ----- e-mail addresses ---------------------------------------------------

  predicate IsLocalChar(c: char) {
    Text.IsAsciiAlnum(c) || c == '_' || c == '\'' || c == '+' || c == '-' || c == '.'
  }

  /** The part before `@`: no leading dot, and it ends in a letter, digit, `_`, `+` or `-`. */
  predicate IsLocalPart(l: string) {
    && |l| >= 1
    && l[0] != '.'
    && (forall i :: 0 <= i < |l| ==> IsLocalChar(l[i]))
    && (Text.IsAsciiAlnum(l[|l| - 1]) || l[|l| - 1] in "_+-")
  }

  /** A domain label: a letter or digit, then letters, digits and hyphens. */
  predicate IsLabel(d: string) {
    && |d| >= 1
    && Text.IsAsciiAlnum(d[0])
    && forall i :: 0 <= i < |d| ==> Text.IsAsciiAlnum(d[i]) || d[i] == '-'
  }

  /** A top-level domain: two or more letters. */
  predicate IsTopLevel(d: string) {
    |d| >= 2 && forall i :: 0 <= i < |d| ==> Text.IsAsciiLower(d[i]) || Text.IsAsciiUpper(d[i])
  }

  predicate IsDomain(d: string) {
    var labels := Text.Split(d, '.');
    && |labels| >= 2
    && IsTopLevel(labels[|labels| - 1])
    && forall i :: 0 <= i < |labels| - 1 ==> IsLabel(labels[i])
  }

  /**
   * `z.string().email()`: one `@` between a local part and a dotted domain,
   * and no two consecutive dots anywhere.
   */
  predicate IsEmail(s: string) {
    var parts := Text.Split(s, '@');
    |parts| == 2 && IsLocalPart(parts[0]) && IsDomain(parts[1]) && !Text.Contains(s, "..")
  }

  // ----- users --------------------------------------------------------------

  /** `insertUserSchema`: username 3–50, well-formed e-mail, password ≥ 6, name 1–100. */
  predicate ValidInsertUser(u: InsertUser) {
    LengthIn(u.username, 3, 50) && IsEmail(u.email) && |u.password| >= 6 && LengthIn(u.name, 1, 100)
  }

  function ParseInsertUser(b: Body): (r: Option<InsertUser>)
    ensures r.Some? <==>
      && RequiredString(b, "username").Some? && RequiredString(b, "email").Some?
      && RequiredString(b, "password").Some? && RequiredString(b, "name").Some?
      && ValidInsertUser(InsertUser(b["username"].str, b["email"].str, b["password"].str, b["name"].str))
    ensures r.Some? ==> r.value == InsertUser(b["username"].str, b["email"].str, b["password"].str, b["name"].str)
  {
    var username := RequiredString(b, "username");
    var email := RequiredString(b, "email");
    var password := RequiredString(b, "password");
    var name := RequiredString(b, "name");
    if username.None? || email.None? || password.None? || name.None? then None
    else
      var u := InsertUser(username.value, email.value, password.value, name.value);
      if ValidInsertUser(u) then Some(u) else None
  }

  function InsertUserBody(u: InsertUser): Body {
    map["username" := JString(u.username), "email" := JString(u.email),
        "password" := JString(u.password), "name" := JString(u.name)]
  }

  /** A registration round-trips through its JSON body exactly when it is valid. */
  lemma InsertUserRoundTrip(u: InsertUser)
    ensures ParseInsertUser(InsertUserBody(u)) == (if ValidInsertUser(u) then Some(u) else None)
  {
  }

  /** Keys outside the schema are stripped: they never change the outcome. */
  lemma InsertUserIgnoresExtraKeys(b: Body, key: string, v: Json)
    requires key !in {"username", "email", "password", "name"}
    ensures ParseInsertUser(b[key := v]) == ParseInsertUser(b)
  {
    assert RequiredString(b[key := v], "username") == RequiredString(b, "username");
    assert RequiredString(b[key := v], "email") == RequiredString(b, "email");
    assert RequiredString(b[key := v], "password") == RequiredString(b, "password");
    assert RequiredString(b[key := v], "name") == RequiredString(b, "name");
  }

  /** `loginUserSchema`: well-formed e-mail and a non-empty password. */
  predicate ValidLoginUser(l: LoginUser) {
    IsEmail(l.email) && |l.password| >= 1
  }

  function ParseLoginUser(b: Body): (r: Option<LoginUser>)
    ensures r.Some? <==>
      && RequiredString(b, "email").Some? && RequiredString(b, "password").Some?
      && ValidLoginUser(LoginUser(b["email"].str, b["password"].str))
    ensures r.Some? ==> r.value == LoginUser(b["email"].str, b["password"].str)
  {
    var email := RequiredString(b, "email");
    var password := RequiredString(b, "password");
    if email.None? || password.None? then None
    else
      var l := LoginUser(email.value, password.value);
      if ValidLoginUser(l) then Some(l) else None
  }

  // ----- playlists ----------------------------------------------------------

  /** `insertPlaylistSchema`: name 1–100, optional description ≤ 500. */
  predicate ValidInsertPlaylist(p: InsertPlaylist) {
    LengthIn(p.name, 1, 100) && (p.description.Some? ==> |p.description.value| <= 500)
  }

  function ParseInsertPlaylist(b: Body): (r: Option<InsertPlaylist>)
    ensures r.Some? <==>
      && RequiredString(b, "name").Some? && OptionalString(b, "description").Some?
      && ValidInsertPlaylist(InsertPlaylist(b["name"].str, OptionalString(b, "description").value))
    ensures r.Some? ==> r.value == InsertPlaylist(b["name"].str, OptionalString(b, "description").value)
  {
    var name := RequiredString(b, "name");
    var description := OptionalString(b, "description");
    if name.None? || description.None? then None
    else
      var p := InsertPlaylist(name.value, description.value);
      if ValidInsertPlaylist(p) then Some(p) else None
  }

  /** `updatePlaylistSchema`: the insert schema with both fields optional. */
  predicate ValidUpdatePlaylist(p: UpdatePlaylist) {
    && (p.name.Some? ==> LengthIn(p.name.value, 1, 100))
    && (p.description.Some? ==> |p.description.value| <= 500)
  }

  function ParseUpdatePlaylist(b: Body): (r: Option<UpdatePlaylist>)
    ensures r.Some? <==>
      && OptionalString(b, "name").Some? && OptionalString(b, "description").Some?
      && ValidUpdatePlaylist(UpdatePlaylist(OptionalString(b, "name").value, OptionalString(b, "description").value))
    ensures r.Some? ==> r.value == UpdatePlaylist(OptionalString(b, "name").value, OptionalString(b, "description").value)
  {
    var name := OptionalString(b, "name");
    var description := OptionalString(b, "description");
    if name.None? || description.None? then None
    else
      var p := UpdatePlaylist(name.value, description.value);
      if ValidUpdatePlaylist(p) then Some(p) else None
  }

  /** The update schema imposes nothing on an empty body: `{}` is a valid update. */
  lemma EmptyUpdateAccepted()
    ensures ParseUpdatePlaylist(map[]) == Some(UpdatePlaylist(None, None))
  {
  }

  /** Every full playlist body that the insert schema admits, the update schema admits too. */
  lemma InsertPlaylistIsUpdate(b: Body)
    requires ParseInsertPlaylist(b).Some?
    ensures ParseUpdatePlaylist(b) ==
      Some(UpdatePlaylist(Some(ParseInsertPlaylist(b).value.name), ParseInsertPlaylist(b).value.description))
  {
  }

  // ----- songs --------------------------------------------------------------

  function OptionalField(key: string, o: Option<string>): Body {
    if o.Some? then map[key := JString(o.value)] else map[]
  }

  function InsertSongBody(s: InsertSong): Body {
    map["spotifyId" := JString(s.spotifyId), "name" := JString(s.name), "artist" := JString(s.artist),
        "album" := JString(s.album), "duration" := JNumber(s.duration)]
    + OptionalField("imageUrl", s.imageUrl) + OptionalField("previewUrl", s.previewUrl)
  }

  /**
   * `insertSongSchema`: four strings and a number are required, the two urls
   * are optional, and no length or range is imposed on any of them.
   */
  function ParseInsertSong(b: Body): (r: Option<InsertSong>)
    ensures r.Some? <==>
      && RequiredString(b, "spotifyId").Some? && RequiredString(b, "name").Some?
      && RequiredString(b, "artist").Some? && RequiredString(b, "album").Some?
      && RequiredNumber(b, "duration").Some?
      && OptionalString(b, "imageUrl").Some? && OptionalString(b, "previewUrl").Some?
    ensures r.Some? ==> r.value == InsertSong(
      b["spotifyId"].str, b["name"].str, b["artist"].str, b["album"].str, b["duration"].num,
      OptionalString(b, "imageUrl").value, OptionalString(b, "previewUrl").value)
  {
    var spotifyId := RequiredString(b, "spotifyId");
    var name := RequiredString(b, "name");
    var artist := RequiredString(b, "artist");
    var album := RequiredString(b, "album");
    var duration := RequiredNumber(b, "duration");
    var imageUrl := OptionalString(b, "imageUrl");
    var previewUrl := OptionalString(b, "previewUrl");
    if spotifyId.None? || name.None? || artist.None? || album.None? || duration.None?
       || imageUrl.None? || previewUrl.None?
    then None
    else Some(InsertSong(spotifyId.value, name.value, artist.value, album.value, duration.value,
                         imageUrl.value, previewUrl.value))
  }

  /** An optional `z.number().optional()` field, read as `OptionalString` reads a string. */
  function OptionalNumber(b: Body, key: string): (r: Option<Option<int>>)
    ensures r.Some? <==> key !in b || b[key].JNumber?
    ensures r == Some(None) <==> key !in b
    ensures r.Some? && r.value.Some? ==> key in b && r.value.value == b[key].num
  {
    if key !in b then Some(None)
    else if b[key].JNumber? then Some(Some(b[key].num))
    else None
  }

  /** `insertSongSchema.partial()`: every field optional, and of its own type when given. */
  function ParseSongUpdate(b: Body): (r: Option<SongUpdate>)
    ensures r.Some? <==>
      && OptionalString(b, "spotifyId").Some? && OptionalString(b, "name").Some?
      && OptionalString(b, "artist").Some? && OptionalString(b, "album").Some?
      && OptionalNumber(b, "duration").Some?
      && OptionalString(b, "imageUrl").Some? && OptionalString(b, "previewUrl").Some?
    ensures r.Some? ==> r.value == SongUpdate(
      OptionalString(b, "spotifyId").value, OptionalString(b, "name").value, OptionalString(b, "artist").value,
      OptionalString(b, "album").value, OptionalNumber(b, "duration").value,
      OptionalString(b, "imageUrl").value, OptionalString(b, "previewUrl").value)
  {
    var spotifyId := OptionalString(b, "spotifyId");
    var name := OptionalString(b, "name");
    var artist := OptionalString(b, "artist");
    var album := OptionalString(b, "album");
    var duration := OptionalNumber(b, "duration");
    var imageUrl := OptionalString(b, "imageUrl");
    var previewUrl := OptionalString(b, "previewUrl");
    if spotifyId.None? || name.None? || artist.None? || album.None? || duration.None?
       || imageUrl.None? || previewUrl.None?
    then None
    else Some(SongUpdate(spotifyId.value, name.value, artist.value, album.value, duration.value,
                         imageUrl.value, previewUrl.value))
  }

  /** A full song body is also a valid partial one, setting every required field. */
  lemma InsertSongIsUpdate(b: Body)
    requires ParseInsertSong(b).Some?
    ensures var s := ParseInsertSong(b).value;
      ParseSongUpdate(b) == Some(SongUpdate(Some(s.spotifyId), Some(s.name), Some(s.artist), Some(s.album),
                                            Some(s.duration), s.imageUrl, s.previewUrl))
  {
  }

  /** Every song record round-trips through its JSON body, whatever its values. */
  lemma InsertSongRoundTrip(s: InsertSong)
    ensures ParseInsertSong(InsertSongBody(s)) == Some(s)
  {
    var b := InsertSongBody(s);
    assert RequiredString(b, "spotifyId") == Some(s.spotifyId);
    assert RequiredString(b, "name") == Some(s.name);
    assert RequiredString(b, "artist") == Some(s.artist);
    assert RequiredString(b, "album") == Some(s.album);
    assert RequiredNumber(b, "duration") == Some(s.duration);
    assert OptionalString(b, "imageUrl") == Some(s.imageUrl);
    assert OptionalString(b, "previewUrl") == Some(s.previewUrl);
  }

  /** No range is imposed on `duration`: a negative one passes the schema. */
  lemma NegativeDurationPassesSchema(s: InsertSong)
    requires s.duration < 0
    ensures ParseInsertSong(InsertSongBody(s)).Some?
    ensures ParseInsertSong(InsertSongBody(s)).value.duration < 0
  {
    InsertSongRoundTrip(s);
  }
}
