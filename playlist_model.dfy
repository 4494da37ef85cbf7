/**
 * The playlist document schema: `name` required, trimmed, at most 100
 * characters; `description` optional, trimmed, at most 500; `owner`
 * required; `songs` an ordered array of song ids with no uniqueness of its
 * own. Saving runs the trim setters first and the validators after them.
 */
module PlaylistModel {
  import opened Wrappers
  import opened Schema
  import Text
  import Mongo

  const NameMaxLength: nat := 100
  const DescriptionMaxLength: nat := 500

  /** The prefix of the `ValidationError` message Mongoose raises for this model. */
  const ValidationFailed := "Playlist validation failed"

  /** The fields of a playlist document once saved. */
  datatype Fields = Fields(name: string, description: Option<string>, owner: Id)

  /** The schema-checked fields of a stored playlist. */
  function FieldsOf(p: Playlist): (f: Fields)
    ensures f.name == p.name && f.description == p.description && f.owner == p.owner
  {
    Fields(p.name, p.description, p.owner)
  }

  /** What the schema guarantees of every saved playlist. */
  predicate ValidFields(f: Fields) {
    && 1 <= |f.name| <= NameMaxLength
    && Text.Trimmed(f.name)
    && (f.description.Some? ==> |f.description.value| <= DescriptionMaxLength && Text.Trimmed(f.description.value))
  }

  function TrimOption(o: Option<string>): (r: Option<string>)
    ensures r.Some? <==> o.Some?
    ensures r.Some? ==> r.value == Text.Trim(o.value)
  {
    if o.Some? then Some(Text.Trim(o.value)) else None
  }

  lemma TrimOptionIdempotent(o: Option<string>)
    ensures TrimOption(TrimOption(o)) == TrimOption(o)
  {
    if o.Some? {
      Text.TrimIdempotent(o.value);
    }
  }

  /** A `required` failure as it appears in a `ValidationError`. */
  function Missing(path: string): string {
    Mongo.PathError(path, Mongo.RequiredMessage(path))
  }

  /** A `maxlength` failure, printing the offending (trimmed) value. */
  function TooLong(path: string, value: string, max: nat): string {
    Mongo.PathError(path, Mongo.MaxLengthMessage(path, value, max))
  }

  lemma TooLongShowsValue(path: string, value: string, max: nat)
    ensures Text.Contains(TooLong(path, value, max), value)
  {
    var m := Mongo.MaxLengthMessage(path, value, max);
    Mongo.MaxLengthMessageShowsValue(path, value, max);
    Mongo.PathErrorShowsMessage(path, m);
    Text.ContainsTransitive(TooLong(path, value, max), m, value);
  }

  /** The failed `name` validators of a trimmed name: `required`, else `maxlength`. */
  function NameErrors(n: Option<string>): (errs: seq<string>)
    ensures errs == [] <==> n.Some? && n.value != [] && |n.value| <= NameMaxLength
  {
    if n.None? || n.value == [] then [Missing("name")]
    else if |n.value| > NameMaxLength then [TooLong("name", n.value, NameMaxLength)]
    else []
  }

  /** The failed `maxlength` of a trimmed description. */
  function DescriptionErrors(d: Option<string>): (errs: seq<string>)
    ensures errs == [] <==> (d.Some? ==> |d.value| <= DescriptionMaxLength)
  {
    if d.Some? && |d.value| > DescriptionMaxLength then [TooLong("description", d.value, DescriptionMaxLength)] else []
  }

  /**
   * Trim, then check `required` and `maxlength`: a name of white space only
   * is missing, and lengths are measured after trimming. A failure reports
   * every failed path, and an over-long value is printed into the message.
   */
  function Validate(name: Option<string>, description: Option<string>, owner: Option<Id>): (r: Result<Fields>)
    ensures r.Ok? <==>
      && name.Some? && Text.Trim(name.value) != [] && |Text.Trim(name.value)| <= NameMaxLength
      && (description.Some? ==> |Text.Trim(description.value)| <= DescriptionMaxLength)
      && owner.Some?
    ensures r.Ok? ==> ValidFields(r.value)
    ensures r.Ok? ==> r.value.name == Text.Trim(name.value) && r.value.owner == owner.value
    ensures r.Ok? ==> r.value.description == TrimOption(description)
    ensures r.Err? ==> Text.StartsWith(r.message, ValidationFailed)
  {
    var n := TrimOption(name);
    var d := TrimOption(description);
    var ne, de, oe := NameErrors(n), DescriptionErrors(d), if owner.None? then [Missing("owner")] else [];
    if ne + de + oe == [] then Ok(Fields(n.value, d, owner.value))
    else Err(Mongo.ValidationMessage(ValidationFailed, ne + de + oe))
  }

  /** A save rejects an over-long name or description and prints the trimmed value into the message. */
  lemma ValidateShowsLongValues(name: Option<string>, description: Option<string>, owner: Option<Id>)
    ensures var r := Validate(name, description, owner);
      && (name.Some? && |Text.Trim(name.value)| > NameMaxLength ==> r.Err? && Text.Contains(r.message, Text.Trim(name.value)))
      && (description.Some? && |Text.Trim(description.value)| > DescriptionMaxLength ==>
            r.Err? && Text.Contains(r.message, Text.Trim(description.value)))
  {
    var n, d := TrimOption(name), TrimOption(description);
    var ne, de, oe := NameErrors(n), DescriptionErrors(d), if owner.None? then [Missing("owner")] else [];
    if ne + de + oe != [] {
      ShowsLongValues(ValidationFailed, ne, de, oe, n, d);
    }
  }

  /** Every over-long trimmed value is printed into the message that reports the failed paths. */
  lemma ShowsLongValues(prefix: string, ne: seq<string>, de: seq<string>, oe: seq<string>, n: Option<string>, d: Option<string>)
    requires ne + de + oe != []
    requires n.Some? && |n.value| > NameMaxLength ==> ne == NameErrors(n)
    requires d.Some? && |d.value| > DescriptionMaxLength ==> de == DescriptionErrors(d)
    ensures var m := Mongo.ValidationMessage(prefix, ne + de + oe);
      && (n.Some? && |n.value| > NameMaxLength ==> Text.Contains(m, n.value))
      && (d.Some? && |d.value| > DescriptionMaxLength ==> Text.Contains(m, d.value))
  {
    var errs := ne + de + oe;
    var m := Mongo.ValidationMessage(prefix, errs);
    if n.Some? && |n.value| > NameMaxLength {
      assert errs[0] == TooLong("name", n.value, NameMaxLength);
      TooLongShowsValue("name", n.value, NameMaxLength);
      Mongo.ValidationMessageShowsErrors(prefix, errs, 0);
      Text.ContainsTransitive(m, errs[0], n.value);
    }
    if d.Some? && |d.value| > DescriptionMaxLength {
      assert errs[|ne|] == TooLong("description", d.value, DescriptionMaxLength);
      TooLongShowsValue("description", d.value, DescriptionMaxLength);
      Mongo.ValidationMessageShowsErrors(prefix, errs, |ne|);
      Text.ContainsTransitive(m, errs[|ne|], d.value);
    }
  }

  /** The description of a saved playlist is already trimmed. */
  lemma SavedDescriptionTrimmed(f: Fields)
    requires ValidFields(f)
    ensures TrimOption(f.description) == f.description
  {
    if f.description.Some? {
      Text.TrimmedIsFixpoint(f.description.value);
    }
  }

  /** Saving a saved playlist again passes validation and changes none of its fields. */
  lemma ValidateSaved(f: Fields)
    requires ValidFields(f)
    ensures Validate(Some(f.name), f.description, Some(f.owner)) == Ok(f)
  {
    Text.TrimmedIsFixpoint(f.name);
    SavedDescriptionTrimmed(f);
  }

  /** The prefix of the `ValidationError` message the update validators raise. */
  const UpdateValidationFailed := "Validation failed"

  /**
   * The update validators of `findOneAndUpdate(..., {runValidators: true})`:
   * only the paths the update sets are cast (trimmed) and checked, with the
   * same `required` and `maxlength` rules and messages as a save.
   */
  function ValidateUpdate(name: Option<string>, description: Option<string>): (r: Result<(Option<string>, Option<string>)>)
    ensures r.Ok? <==>
      && (name.Some? ==> Text.Trim(name.value) != [] && |Text.Trim(name.value)| <= NameMaxLength)
      && (description.Some? ==> |Text.Trim(description.value)| <= DescriptionMaxLength)
    ensures r.Ok? ==> r.value == (TrimOption(name), TrimOption(description))
    ensures r.Err? ==> Text.StartsWith(r.message, UpdateValidationFailed)
  {
    var n := TrimOption(name);
    var d := TrimOption(description);
    var ne, de := if n.Some? then NameErrors(n) else [], DescriptionErrors(d);
    if ne + de == [] then Ok((n, d)) else Err(Mongo.ValidationMessage(UpdateValidationFailed, ne + de))
  }

  /** An update rejects an over-long name or description and prints the trimmed value into the message. */
  lemma ValidateUpdateShowsLongValues(name: Option<string>, description: Option<string>)
    ensures var r := ValidateUpdate(name, description);
      && (name.Some? && |Text.Trim(name.value)| > NameMaxLength ==> r.Err? && Text.Contains(r.message, Text.Trim(name.value)))
      && (description.Some? && |Text.Trim(description.value)| > DescriptionMaxLength ==>
            r.Err? && Text.Contains(r.message, Text.Trim(description.value)))
  {
    var n, d := TrimOption(name), TrimOption(description);
    var ne, de := if n.Some? then NameErrors(n) else [], DescriptionErrors(d);
    if ne + de != [] {
      ShowsLongValues(UpdateValidationFailed, ne, de, [], n, d);
      assert ne + de + [] == ne + de;
    }
  }

  /** The fields after an update that passed the update validators. */
  function ApplyUpdate(f: Fields, name: Option<string>, description: Option<string>): (g: Fields)
    ensures g.owner == f.owner
    ensures g.name == (if name.Some? then name.value else f.name)
    ensures g.description == (if description.Some? then description else f.description)
  {
    Fields(if name.Some? then name.value else f.name, if description.Some? then description else f.description, f.owner)
  }

  /** A validated update keeps a valid playlist valid. */
  lemma UpdateKeepsValid(f: Fields, name: Option<string>, description: Option<string>)
    requires ValidFields(f)
    requires ValidateUpdate(name, description).Ok?
    ensures var (n, d) := ValidateUpdate(name, description).value; ValidFields(ApplyUpdate(f, n, d))
  {
  }

  /**
   * Mongoose's cast of a JSON value to a `String` path: strings stay,
   * numbers and booleans print, `null` is no value, and objects or arrays
   * cannot be cast.
   */
  function CastString(v: Json): (r: Result<Option<string>>)
    ensures r.Err? <==> v.JComposite?
    ensures v.JString? ==> r == Ok(Some(v.str))
    ensures v.JNull? ==> r == Ok(None)
    ensures v.JNumber? ==> r.Ok? && r.value.Some? && r.value.value == Text.IntToString(v.num)
    ensures r.Err? ==> Text.StartsWith(r.message, ValidationFailed)
  {
    match v
    case JString(s) => Ok(Some(s))
    case JNumber(n) => Ok(Some(Text.IntToString(n)))
    case JBool(b) => Ok(Some(if b then "true" else "false"))
    case JNull => Ok(None)
    case JComposite => Err(ValidationFailed + ": Cast to string failed")
  }
}
