/**
 * The MongoDB and Mongoose error messages the handlers inspect: a write that
 * breaks a unique index, and the `ValidationError` a failed save or update
 * raises, with Mongoose's default message for each failed validator.
 */
module Mongo {
  import Text

  /** The E11000 message for a write that clashes with `index` of `collection`. */
  function DuplicateKeyError(collection: string, index: string): (m: string)
    ensures Text.StartsWith(m, "E11000 ")
    ensures Text.Contains(m, "duplicate")
  {
    var m := "E11000 " + "duplicate" + " key error collection: " + collection + " index: " + index + " dup key";
    assert m[7..16] == "duplicate";
    assert Text.OccursAt(m, "duplicate", 7);
    m
  }

  /** The default message of a failed `required` validator. */
  function RequiredMessage(path: string): string {
    "Path `" + path + "` is required."
  }

  /** The default message of a failed `min` validator; it prints the offending value. */
  function MinMessage(path: string, value: int, min: int): string {
    "Path `" + path + "` (" + Text.IntToString(value) + ") is less than minimum allowed value (" + Text.IntToString(min) + ")."
  }

  lemma MinMessageShowsValue(path: string, value: int, min: int)
    ensures Text.Contains(MinMessage(path, value, min), Text.IntToString(value))
  {
    var v := Text.IntToString(value);
    var before := "Path `" + path + "` (";
    var after := ") is less than minimum allowed value (" + Text.IntToString(min) + ").";
    assert Text.OccursAt(v, v, 0);
    Text.ContainsInConcat(before, v, v);
    Text.ContainsInConcat(before + v, after, v);
    assert MinMessage(path, value, min) == before + v + after;
  }

  /** The default message of a failed `maxlength` validator; it prints the offending value. */
  function MaxLengthMessage(path: string, value: string, max: nat): string {
    "Path `" + path + "` (`" + value + "`) is longer than the maximum allowed length (" + Text.NatToString(max) + ")."
  }

  lemma MaxLengthMessageShowsValue(path: string, value: string, max: nat)
    ensures Text.Contains(MaxLengthMessage(path, value, max), value)
  {
    var before := "Path `" + path + "` (`";
    var after := "`) is longer than the maximum allowed length (" + Text.NatToString(max) + ").";
    assert Text.OccursAt(value, value, 0);
    Text.ContainsInConcat(before, value, value);
    Text.ContainsInConcat(before + value, after, value);
    assert MaxLengthMessage(path, value, max) == before + value + after;
  }

  /** One failed path of a `ValidationError`: the path, then its validator's message. */
  function PathError(path: string, message: string): string {
    path + ": " + message
  }

  lemma PathErrorShowsMessage(path: string, message: string)
    ensures Text.Contains(PathError(path, message), message)
  {
    assert Text.OccursAt(message, message, 0);
    Text.ContainsInConcat(path + ": ", message, message);
  }

  /**
   * The message of a `ValidationError`: its prefix (`<Model> validation
   * failed`, or `Validation failed` for update validators), then the error
   * of every failed path, joined by ", ".
   */
  function ValidationMessage(prefix: string, errors: seq<string>): (m: string)
    requires errors != []
    ensures Text.StartsWith(m, prefix) && |m| > |prefix|
  {
    var m := prefix + (": " + Text.Join(errors, ", "));
    assert m[..|prefix|] == prefix;
    m
  }

  /** The message reports every failed path. */
  lemma ValidationMessageShowsErrors(prefix: string, errors: seq<string>, i: nat)
    requires i < |errors|
    ensures Text.Contains(ValidationMessage(prefix, errors), errors[i])
  {
    Text.JoinContainsPart(errors, ", ", i);
    Text.ContainsInConcat(": ", Text.Join(errors, ", "), errors[i]);
    Text.ContainsInConcat(prefix, ": " + Text.Join(errors, ", "), errors[i]);
  }
}
