/**
 * The user document schema: `username`, `email`, `password` and `name` are
 * required strings, `username` and `email` are each unique, nothing is
 * trimmed or lowercased, and a pre-save hook re-hashes `password` whenever
 * it was modified. `comparePassword` asks bcrypt whether a candidate matches
 * the stored hash.
 */
module UserModel {
  import opened Wrappers
  import opened Schema
  import Mongo
  import Text

  const ValidationFailed := "User validation failed"
  const DuplicateEmail := Mongo.DuplicateKeyError("users", "email_1")
  const DuplicateUsername := Mongo.DuplicateKeyError("users", "username_1")

  /** A `required` failure as it appears in a `ValidationError`. */
  function Missing(path: string): string {
    Mongo.PathError(path, Mongo.RequiredMessage(path))
  }

  /** `required` on a string path: the empty string is missing. A failure reports every missing path. */
  function Validate(username: string, email: string, password: string, name: string): (r: Result<()>)
    ensures r.Ok? <==> username != [] && email != [] && password != [] && name != []
    ensures r.Err? ==> |r.message| > |ValidationFailed| && r.message[..|ValidationFailed|] == ValidationFailed
  {
    var errs := (if username == [] then [Missing("username")] else [])
      + (if email == [] then [Missing("email")] else [])
      + (if password == [] then [Missing("password")] else [])
      + (if name == [] then [Missing("name")] else []);
    if errs == [] then Ok(()) else Err(Mongo.ValidationMessage(ValidationFailed, errs))
  }

  /** The prefix of the `ValidationError` message the update validators raise. */
  const UpdateValidationFailed := "Validation failed"

  /**
   * The update validators of `findByIdAndUpdate(..., {runValidators: true})`:
   * only the paths the update sets are checked, against `required`.
   */
  function ValidateUpdate(username: Option<string>, email: Option<string>, name: Option<string>): (r: Result<()>)
    ensures r.Ok? <==> username != Some([]) && email != Some([]) && name != Some([])
    ensures r.Err? ==> Text.StartsWith(r.message, UpdateValidationFailed)
  {
    var errs := (if username == Some([]) then [Missing("username")] else [])
      + (if email == Some([]) then [Missing("email")] else [])
      + (if name == Some([]) then [Missing("name")] else []);
    if errs == [] then Ok(()) else Err(Mongo.ValidationMessage(UpdateValidationFailed, errs))
  }

  /** The pre-save hook: the password is hashed again iff it was modified. */
  function PreSave(hash: string -> string, password: string, modified: bool): (stored: string)
    ensures modified ==> stored == hash(password)
    ensures !modified ==> stored == password
  {
    if modified then hash(password) else password
  }

  /** `comparePassword`: bcrypt's verdict on a candidate against the stored hash. */
  function ComparePassword(verify: (string, string) -> bool, candidate: string, u: User): (ok: bool)
    ensures ok == verify(candidate, u.password)
  {
    verify(candidate, u.password)
  }

  /**
   * An idealised bcrypt: a hash verifies exactly the text it was made from.
   * Real bcrypt reads only the first 72 bytes of a password, so two texts
   * that agree on those bytes verify alike; that collision is not modelled.
   */
  ghost predicate BcryptLike(hash: string -> string, verify: (string, string) -> bool) {
    forall p: string, q: string :: verify(p, hash(q)) <==> p == q
  }

  /** A password the hook hashed on save is matched by exactly the text that was saved. */
  lemma SavedPasswordMatches(hash: string -> string, verify: (string, string) -> bool, u: User, saved: string, candidate: string)
    requires BcryptLike(hash, verify)
    ensures ComparePassword(verify, candidate, u.(password := PreSave(hash, saved, true))) <==> candidate == saved
  {
    assert u.(password := PreSave(hash, saved, true)).password == hash(saved);
  }

  /**
   * Saving a password that is already a hash stores a hash of the hash:
   * the original text no longer matches unless hashing left it unchanged.
   */
  lemma RehashedPasswordFails(hash: string -> string, verify: (string, string) -> bool, u: User, password: string)
    requires BcryptLike(hash, verify) && hash(password) != password
    ensures !ComparePassword(verify, password, u.(password := PreSave(hash, hash(password), true)))
  {
    SavedPasswordMatches(hash, verify, u, hash(password), password);
  }

  /** A document saved without touching its password keeps matching what it matched before. */
  lemma UnmodifiedPasswordKeepsMatching(hash: string -> string, verify: (string, string) -> bool, u: User, candidate: string)
    ensures ComparePassword(verify, candidate, u.(password := PreSave(hash, u.password, false))) == ComparePassword(verify, candidate, u)
  {
    assert u.(password := PreSave(hash, u.password, false)) == u;
  }
}
