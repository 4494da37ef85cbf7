/**
 * The song document schema: `spotifyId` required, unique and trimmed;
 * `name`, `artist` and `album` required and trimmed; `duration` required and
 * at least 0; `imageUrl` and `previewUrl` optional and trimmed; timestamps
 * maintained. Saving trims first and validates after.
 */
module SongModel {
  import opened Wrappers
  import opened Schema
  import Text
  import Mongo

  /** The prefix of the `ValidationError` message Mongoose raises for this model. */
  const ValidationFailed := "Song validation failed"

  /** The message of the unique-index violation on `spotifyId`. */
  const DuplicateKey := Mongo.DuplicateKeyError("songs", "spotifyId_1")

  /** A required string path: present and not empty once trimmed. */
  predicate Present(s: string) {
    Text.Trim(s) != []
  }

  function TrimOption(o: Option<string>): (r: Option<string>)
    ensures r.Some? <==> o.Some?
    ensures r.Some? ==> r.value == Text.Trim(o.value)
  {
    if o.Some? then Some(Text.Trim(o.value)) else None
  }

  /** The fields a save accepts: every required path present once trimmed, and a duration of at least 0. */
  predicate Acceptable(s: InsertSong) {
    Present(s.spotifyId) && Present(s.name) && Present(s.artist) && Present(s.album) && s.duration >= 0
  }

  /** What the schema guarantees of every saved song's fields. */
  predicate ValidFields(s: InsertSong) {
    && s.spotifyId != [] && Text.Trimmed(s.spotifyId)
    && s.name != [] && Text.Trimmed(s.name)
    && s.artist != [] && Text.Trimmed(s.artist)
    && s.album != [] && Text.Trimmed(s.album)
    && s.duration >= 0
    && (s.imageUrl.Some? ==> Text.Trimmed(s.imageUrl.value))
    && (s.previewUrl.Some? ==> Text.Trimmed(s.previewUrl.value))
  }

  /** The trim setters applied to every string path. */
  function Normalize(s: InsertSong): (r: InsertSong)
    ensures r.duration == s.duration
    ensures r.spotifyId == Text.Trim(s.spotifyId) && r.name == Text.Trim(s.name)
    ensures r.artist == Text.Trim(s.artist) && r.album == Text.Trim(s.album)
    ensures r.imageUrl == TrimOption(s.imageUrl) && r.previewUrl == TrimOption(s.previewUrl)
  {
    InsertSong(Text.Trim(s.spotifyId), Text.Trim(s.name), Text.Trim(s.artist), Text.Trim(s.album),
               s.duration, TrimOption(s.imageUrl), TrimOption(s.previewUrl))
  }

  /** A `required` failure as it appears in a `ValidationError`. */
  function Missing(path: string): string {
    Mongo.PathError(path, Mongo.RequiredMessage(path))
  }

  /** The `min: 0` failure of `duration`, printing the offending value. */
  function BelowZero(duration: int): string {
    Mongo.PathError("duration", Mongo.MinMessage("duration", duration, 0))
  }

  lemma BelowZeroShowsValue(duration: int)
    ensures Text.Contains(BelowZero(duration), Text.IntToString(duration))
  {
    var m := Mongo.MinMessage("duration", duration, 0);
    Mongo.MinMessageShowsValue("duration", duration, 0);
    Mongo.PathErrorShowsMessage("duration", m);
    Text.ContainsTransitive(BelowZero(duration), m, Text.IntToString(duration));
  }

  /** The failed paths of normalised fields, in the schema's order. */
  function FieldErrors(n: InsertSong): (errs: seq<string>)
    ensures errs == [] <==> n.spotifyId != [] && n.name != [] && n.artist != [] && n.album != [] && n.duration >= 0
    ensures n.duration < 0 ==> BelowZero(n.duration) in errs
  {
    (if n.spotifyId == [] then [Missing("spotifyId")] else [])
    + (if n.name == [] then [Missing("name")] else [])
    + (if n.artist == [] then [Missing("artist")] else [])
    + (if n.album == [] then [Missing("album")] else [])
    + (if n.duration < 0 then [BelowZero(n.duration)] else [])
  }

  /**
   * Trim, then check `required` and `min: 0`. A failure reports every failed
   * path, and a negative duration is printed into the message.
   */
  function Validate(s: InsertSong): (r: Result<InsertSong>)
    ensures r.Ok? <==>
      Present(s.spotifyId) && Present(s.name) && Present(s.artist) && Present(s.album) && s.duration >= 0
    ensures r.Ok? ==> r.value == Normalize(s) && ValidFields(r.value)
    ensures r.Err? ==> Text.StartsWith(r.message, ValidationFailed)
  {
    var n := Normalize(s);
    var errs := FieldErrors(n);
    if errs == [] then Ok(n) else Err(Mongo.ValidationMessage(ValidationFailed, errs))
  }

  /** A negative duration fails validation, and the message prints it, as Mongoose's `min` message does. */
  lemma NegativeDurationShown(s: InsertSong)
    requires s.duration < 0
    ensures Validate(s).Err? && Text.Contains(Validate(s).message, Text.IntToString(s.duration))
  {
    var errs := FieldErrors(Normalize(s));
    var i :| 0 <= i < |errs| && errs[i] == BelowZero(s.duration);
    BelowZeroShowsValue(s.duration);
    Mongo.ValidationMessageShowsErrors(ValidationFailed, errs, i);
    Text.ContainsTransitive(Mongo.ValidationMessage(ValidationFailed, errs), errs[i], Text.IntToString(s.duration));
  }

  /** `Acceptable` is exactly what validation accepts, and an accepted song is stored normalised. */
  lemma AcceptableValidates(s: InsertSong)
    ensures Acceptable(s) ==> Validate(s) == Ok(Normalize(s))
    ensures !Acceptable(s) ==> Validate(s).Err?
  {
  }

  lemma TrimOptionIdempotent(o: Option<string>)
    ensures TrimOption(TrimOption(o)) == TrimOption(o)
  {
    if o.Some? {
      Text.TrimIdempotent(o.value);
    }
  }

  /** Validation accepts exactly the normalisations of what it accepts, and leaves them as they are. */
  lemma ValidateSaved(s: InsertSong)
    requires ValidFields(s)
    ensures Validate(s) == Ok(s)
  {
    Text.TrimmedIsFixpoint(s.spotifyId);
    Text.TrimmedIsFixpoint(s.name);
    Text.TrimmedIsFixpoint(s.artist);
    Text.TrimmedIsFixpoint(s.album);
    if s.imageUrl.Some? {
      Text.TrimmedIsFixpoint(s.imageUrl.value);
    }
    if s.previewUrl.Some? {
      Text.TrimmedIsFixpoint(s.previewUrl.value);
    }
  }

  /** The fields of a stored song, as the insert shape. */
  function FieldsOf(s: Song): (r: InsertSong)
    ensures r.spotifyId == s.spotifyId && r.duration == s.duration
  {
    InsertSong(s.spotifyId, s.name, s.artist, s.album, s.duration, s.imageUrl, s.previewUrl)
  }

  /** A stored song built from validated fields, with its id and timestamps. */
  function MakeSong(id: Id, f: InsertSong, now: nat): (r: Song)
    ensures FieldsOf(r) == f && r.id == id
    ensures r.createdAt == now && r.updatedAt == now
  {
    Song(id, f.spotifyId, f.name, f.artist, f.album, f.duration, f.imageUrl, f.previewUrl, now, now)
  }

  /** The prefix of the `ValidationError` message the update validators raise. */
  const UpdateValidationFailed := "Validation failed"

  /** The failed paths of a normalised update, in the schema's order: only the paths it sets. */
  function UpdateErrors(n: SongUpdate): (errs: seq<string>)
    ensures errs == [] <==>
      && n.spotifyId != Some([]) && n.name != Some([]) && n.artist != Some([]) && n.album != Some([])
      && (n.duration.Some? ==> n.duration.value >= 0)
    ensures n.duration.Some? && n.duration.value < 0 ==> BelowZero(n.duration.value) in errs
  {
    (if n.spotifyId == Some([]) then [Missing("spotifyId")] else [])
    + (if n.name == Some([]) then [Missing("name")] else [])
    + (if n.artist == Some([]) then [Missing("artist")] else [])
    + (if n.album == Some([]) then [Missing("album")] else [])
    + (if n.duration.Some? && n.duration.value < 0 then [BelowZero(n.duration.value)] else [])
  }

  /**
   * The update validators of `findByIdAndUpdate(..., {runValidators: true})`:
   * only the paths the update sets are trimmed and checked, with the same
   * `required` and `min: 0` rules and messages as a save.
   */
  function ValidateUpdate(u: SongUpdate): (r: Result<SongUpdate>)
    ensures r.Ok? <==>
      && (u.spotifyId.Some? ==> Present(u.spotifyId.value))
      && (u.name.Some? ==> Present(u.name.value))
      && (u.artist.Some? ==> Present(u.artist.value))
      && (u.album.Some? ==> Present(u.album.value))
      && (u.duration.Some? ==> u.duration.value >= 0)
    ensures r.Ok? ==>
      r.value == SongUpdate(TrimOption(u.spotifyId), TrimOption(u.name), TrimOption(u.artist), TrimOption(u.album),
                            u.duration, TrimOption(u.imageUrl), TrimOption(u.previewUrl))
    ensures r.Err? ==> Text.StartsWith(r.message, UpdateValidationFailed)
  {
    var n := SongUpdate(TrimOption(u.spotifyId), TrimOption(u.name), TrimOption(u.artist), TrimOption(u.album),
                        u.duration, TrimOption(u.imageUrl), TrimOption(u.previewUrl));
    var errs := UpdateErrors(n);
    if errs == [] then Ok(n) else Err(Mongo.ValidationMessage(UpdateValidationFailed, errs))
  }

  /** An update setting a negative duration fails, and the message prints the value. */
  lemma NegativeDurationUpdateShown(u: SongUpdate)
    requires u.duration.Some? && u.duration.value < 0
    ensures ValidateUpdate(u).Err? && Text.Contains(ValidateUpdate(u).message, Text.IntToString(u.duration.value))
  {
    var errs := UpdateErrors(SongUpdate(TrimOption(u.spotifyId), TrimOption(u.name), TrimOption(u.artist), TrimOption(u.album),
                                        u.duration, TrimOption(u.imageUrl), TrimOption(u.previewUrl)));
    var i :| 0 <= i < |errs| && errs[i] == BelowZero(u.duration.value);
    BelowZeroShowsValue(u.duration.value);
    Mongo.ValidationMessageShowsErrors(UpdateValidationFailed, errs, i);
    Text.ContainsTransitive(Mongo.ValidationMessage(UpdateValidationFailed, errs), errs[i], Text.IntToString(u.duration.value));
  }

  function Override<T>(o: Option<T>, current: T): T {
    if o.Some? then o.value else current
  }

  function OverrideOption<T>(o: Option<T>, current: Option<T>): Option<T> {
    if o.Some? then o else current
  }

  /** The fields after an update: every path the update sets is replaced, the rest kept. */
  function ApplyUpdate(f: InsertSong, u: SongUpdate): (g: InsertSong)
  {
    InsertSong(Override(u.spotifyId, f.spotifyId), Override(u.name, f.name), Override(u.artist, f.artist),
               Override(u.album, f.album), Override(u.duration, f.duration),
               OverrideOption(u.imageUrl, f.imageUrl), OverrideOption(u.previewUrl, f.previewUrl))
  }

  /** An update that passed the update validators keeps a saved song valid. */
  lemma UpdateKeepsValid(f: InsertSong, u: SongUpdate)
    requires ValidFields(f)
    requires ValidateUpdate(u).Ok?
    ensures ValidFields(ApplyUpdate(f, ValidateUpdate(u).value))
  {
  }
}
