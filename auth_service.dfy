/**
 * The user registry of the authentication service: registration, login,
 * profile updates and password changes over the `users` collection.
 * bcrypt and jsonwebtoken stay uninterpreted: `hash`, `verify` and `sign`
 * are handed in, and `sign` is applied to the `userId` claim it embeds.
 */
module AuthService {
  import opened Wrappers
  import opened Schema
  import UserModel
  import opened Store

  /** `bcrypt.hash`, `bcrypt.compare(candidate, hash)` and `jwt.sign({ userId })`. */
  datatype Crypto = Crypto(hash: string -> string, verify: (string, string) -> bool, sign: Option<Id> -> string)

  /**
   * `{ user: user.toJSON(), token }`. The user schema has no `toJSON`
   * transform, so `user` is the whole stored document, hash included.
   */
  datatype Session = Session(user: User, token: string)

  /** A user read with `select("-password")`. */
  datatype Profile = Profile(id: Id, username: string, email: string, name: string, createdAt: nat, updatedAt: nat)

  function ProfileOf(u: User): Profile {
    Profile(u.id, u.username, u.email, u.name, u.createdAt, u.updatedAt)
  }

  /** `Partial<InsertUser>`: the fields an update sets. */
  datatype UserUpdate = UserUpdate(username: Option<string>, email: Option<string>, password: Option<string>, name: Option<string>)

  const UserNotFound := "User not found"
  const CurrentPasswordIncorrect := "Current password is incorrect"
  const PasswordChanged := "Password changed successfully"

  ghost predicate EmailTaken(users: map<Id, User>, email: string) {
    exists k :: k in users && users[k].email == email
  }

  ghost predicate UsernameTaken(users: map<Id, User>, username: string) {
    exists k :: k in users && users[k].username == username
  }

  /** Some user other than `id` already has this e-mail. */
  predicate EmailHeldByOther(users: map<Id, User>, id: Id, email: string) {
    exists k :: k in users && k != id && users[k].email == email
  }

  /** Some user other than `id` already has this username. */
  predicate UsernameHeldByOther(users: map<Id, User>, id: Id, username: string) {
    exists k :: k in users && k != id && users[k].username == username
  }

  // ----- lookups -------------------------------------------------------------------

  /** `findUserByEmail`: `findOne({ email })`, exact and case-sensitive. */
  function FindUserByEmail(db: Db, email: string): (r: Option<User>)
    requires db.IdsIssued()
    reads db
    ensures r.Some? ==> r.value in db.users.Values && r.value.email == email
    ensures r.None? <==> !EmailTaken(db.users, email)
  {
    db.UserWithEmail(email)
  }

  /** `findUserByUsername`: `findOne({ username })`, exact and case-sensitive. */
  function FindUserByUsername(db: Db, username: string): (r: Option<User>)
    requires db.IdsIssued()
    reads db
    ensures r.Some? ==> r.value in db.users.Values && r.value.username == username
    ensures r.None? <==> !UsernameTaken(db.users, username)
  {
    db.UserWithUsername(username)
  }

  /** The unique indexes make both lookups exact: each finds the one user with that key. */
  lemma LookupsFindStored(db: Db, u: User)
    requires db.Valid()
    requires u in db.users.Values
    ensures FindUserByEmail(db, u.email) == Some(u)
    ensures FindUserByUsername(db, u.username) == Some(u)
  {
    ValidIdsIssued(db);
    var byEmail := FindUserByEmail(db, u.email).value;
    var byName := FindUserByUsername(db, u.username).value;
    var k :| k in db.users && db.users[k] == u;
    var i :| i in db.users && db.users[i] == byEmail;
    var j :| j in db.users && db.users[j] == byName;
    assert i == k && j == k;
  }

  // ----- registration ----------------------------------------------------------------

  /**
   * `new UserModel(fields).save()`: the `required` validators, then the
   * unique indexes (the e-mail index is taken to fire first), then the
   * pre-save hook, which hashes the password of a new document.
   */
  method SaveUser(db: Db, username: string, email: string, password: string, name: string,
                  hash: string -> string, now: nat)
    returns (r: Result<User>)
    requires db.Valid()
    modifies db
    ensures db.Valid()
    ensures db.songs == old(db.songs) && db.playlists == old(db.playlists)
    ensures r.Ok? <==>
      && UserModel.Validate(username, email, password, name).Ok?
      && !EmailTaken(old(db.users), email) && !UsernameTaken(old(db.users), username)
    ensures UserModel.Validate(username, email, password, name).Err? ==>
      r == Err(UserModel.Validate(username, email, password, name).message)
    ensures UserModel.Validate(username, email, password, name).Ok? && EmailTaken(old(db.users), email) ==>
      r == Err(UserModel.DuplicateEmail)
    ensures (UserModel.Validate(username, email, password, name).Ok? && !EmailTaken(old(db.users), email)
             && UsernameTaken(old(db.users), username)) ==> r == Err(UserModel.DuplicateUsername)
    ensures r.Err? ==> db.users == old(db.users) && db.nextId == old(db.nextId)
    ensures r.Ok? ==>
      && r.value == User(old(db.nextId), username, email, name, UserModel.PreSave(hash, password, true), now, now)
      && r.value.id !in old(db.users) && db.users == old(db.users)[r.value.id := r.value]
  {
    var v := UserModel.Validate(username, email, password, name);
    if v.Err? {
      return Err(v.message);
    }
    ValidIdsIssued(db);
    if db.UserWithEmail(email).Some? {
      return Err(UserModel.DuplicateEmail);
    }
    if db.UserWithUsername(username).Some? {
      return Err(UserModel.DuplicateUsername);
    }
    var id := db.NewId();
    var u := User(id, username, email, name, UserModel.PreSave(hash, password, true), now, now);
    PutUser(db.users, db.nextId, u);
    db.users := db.users[id := u];
    r := Ok(u);
  }

  /**
   * `createUser` as written: the password is hashed, and the pre-save hook
   * hashes the hash again; the token is signed for `user.userid`, a field
   * no user document has, so it carries no user id.
   */
  method CreateUserAsWritten(db: Db, data: InsertUser, crypto: Crypto, now: nat) returns (r: Result<Session>)
    requires db.Valid()
    modifies db
    ensures db.Valid()
    ensures db.songs == old(db.songs) && db.playlists == old(db.playlists)
    ensures r.Ok? <==>
      && UserModel.Validate(data.username, data.email, crypto.hash(data.password), data.name).Ok?
      && !EmailTaken(old(db.users), data.email) && !UsernameTaken(old(db.users), data.username)
    ensures r.Err? ==> db.users == old(db.users) && db.nextId == old(db.nextId)
    ensures r.Ok? ==>
      && r.value.user == User(old(db.nextId), data.username, data.email, data.name, crypto.hash(crypto.hash(data.password)), now, now)
      && r.value.token == crypto.sign(None)
      && r.value.user.id !in old(db.users) && db.users == old(db.users)[r.value.user.id := r.value.user]
    ensures r.Ok? && UserModel.BcryptLike(crypto.hash, crypto.verify) && crypto.hash(data.password) != data.password ==>
      && AuthenticateUser(db, data.email, data.password, crypto).None?
      && AuthenticateUserAsWritten(db, data.email, data.password, crypto).None?
  {
    var saved := SaveUser(db, data.username, data.email, crypto.hash(data.password), data.name, crypto.hash, now);
    if saved.Err? {
      return Err(saved.message);
    }
    r := Ok(Session(saved.value, crypto.sign(None)));
    assert db.users[saved.value.id] == saved.value;
    LookupsFindStored(db, saved.value);
  }

  /**
   * `createUser` as intended: the pre-save hook hashes the password once,
   * and the token is signed for the new user's id.
   */
  method CreateUser(db: Db, data: InsertUser, crypto: Crypto, now: nat) returns (r: Result<Session>)
    requires db.Valid()
    modifies db
    ensures db.Valid()
    ensures db.songs == old(db.songs) && db.playlists == old(db.playlists)
    ensures r.Ok? <==>
      && UserModel.Validate(data.username, data.email, data.password, data.name).Ok?
      && !EmailTaken(old(db.users), data.email) && !UsernameTaken(old(db.users), data.username)
    ensures r.Err? ==> db.users == old(db.users) && db.nextId == old(db.nextId)
    ensures r.Ok? ==>
      && r.value.user == User(old(db.nextId), data.username, data.email, data.name, crypto.hash(data.password), now, now)
      && r.value.token == crypto.sign(Some(r.value.user.id))
      && r.value.user.id !in old(db.users) && db.users == old(db.users)[r.value.user.id := r.value.user]
    ensures r.Ok? && UserModel.BcryptLike(crypto.hash, crypto.verify) ==>
      AuthenticateUser(db, data.email, data.password, crypto) == Some(r.value)
  {
    var saved := SaveUser(db, data.username, data.email, data.password, data.name, crypto.hash, now);
    if saved.Err? {
      return Err(saved.message);
    }
    r := Ok(Session(saved.value, crypto.sign(Some(saved.value.id))));
    assert db.users[saved.value.id] == saved.value;
    LookupsFindStored(db, saved.value);
  }

  // ----- login --------------------------------------------------------------------------

  /**
   * `authenticateUser` as intended: `null` both for an unknown e-mail and
   * for a password that does not verify; otherwise the user and a token
   * signed for its id.
   */
  function AuthenticateUser(db: Db, email: string, password: string, crypto: Crypto): (r: Option<Session>)
    requires db.Valid()
    reads db
    ensures r.Some? <==> exists u :: u in db.users.Values && u.email == email && crypto.verify(password, u.password)
    ensures r.Some? ==>
      && r.value.user in db.users.Values && r.value.user.email == email
      && r.value.token == crypto.sign(Some(r.value.user.id))
  {
    ValidIdsIssued(db);
    match FindUserByEmail(db, email)
    case None => None
    case Some(u) =>
      LookupsFindStored(db, u);
      if !UserModel.ComparePassword(crypto.verify, password, u) then None
      else Some(Session(u, crypto.sign(Some(u.id))))
  }

  /** `authenticateUser` as written: the token is signed for `user.userid`, which is undefined. */
  function AuthenticateUserAsWritten(db: Db, email: string, password: string, crypto: Crypto): (r: Option<Session>)
    requires db.Valid()
    reads db
    ensures r.Some? <==> AuthenticateUser(db, email, password, crypto).Some?
    ensures r.Some? ==> r.value.user == AuthenticateUser(db, email, password, crypto).value.user
    ensures r.Some? ==> r.value.token == crypto.sign(None)
  {
    ValidIdsIssued(db);
    match FindUserByEmail(db, email)
    case None => None
    case Some(u) =>
      if !UserModel.ComparePassword(crypto.verify, password, u) then None
      else Some(Session(u, crypto.sign(None)))
  }

  /** As written, two different users who sign in are handed the same claim: the token cannot tell them apart. */
  lemma AsWrittenTokensIgnoreUser(db: Db, e1: string, p1: string, e2: string, p2: string, crypto: Crypto)
    requires db.Valid()
    requires AuthenticateUserAsWritten(db, e1, p1, crypto).Some? && AuthenticateUserAsWritten(db, e2, p2, crypto).Some?
    ensures AuthenticateUserAsWritten(db, e1, p1, crypto).value.token == AuthenticateUserAsWritten(db, e2, p2, crypto).value.token
  {
  }

  /** As intended, users with different ids get tokens for different claims. */
  lemma TokensNameTheirUser(db: Db, e1: string, p1: string, e2: string, p2: string, crypto: Crypto)
    requires db.Valid()
    requires forall a: Option<Id>, b: Option<Id> :: crypto.sign(a) == crypto.sign(b) ==> a == b
    requires AuthenticateUser(db, e1, p1, crypto).Some? && AuthenticateUser(db, e2, p2, crypto).Some?
    requires e1 != e2
    ensures AuthenticateUser(db, e1, p1, crypto).value.token != AuthenticateUser(db, e2, p2, crypto).value.token
  {
    var u1 := AuthenticateUser(db, e1, p1, crypto).value.user;
    var u2 := AuthenticateUser(db, e2, p2, crypto).value.user;
    var k1 :| k1 in db.users && db.users[k1] == u1;
    var k2 :| k2 in db.users && db.users[k2] == u2;
    assert u1.id == k1 && u2.id == k2;
  }

  // ----- profile and password ----------------------------------------------------------

  /**
   * `updateUser`: any `password` in the update is dropped; the remaining
   * fields go through the update validators and the unique indexes; an id
   * that names no user gives `null`. The reply is read without the password.
   */
  method UpdateUser(db: Db, userId: Option<Id>, update: UserUpdate, now: nat) returns (r: Result<Option<Profile>>)
    requires db.Valid()
    modifies db
    ensures db.Valid()
    ensures db.songs == old(db.songs) && db.playlists == old(db.playlists) && db.nextId == old(db.nextId)
    ensures !(r.Ok? && r.value.Some?) ==> db.users == old(db.users)
    ensures UserModel.ValidateUpdate(update.username, update.email, update.name).Err? ==> r.Err?
    ensures r == Ok(None) <==>
      UserModel.ValidateUpdate(update.username, update.email, update.name).Ok? && (userId.None? || userId.value !in old(db.users))
    ensures r.Err? && UserModel.ValidateUpdate(update.username, update.email, update.name).Ok? ==>
      r == Err(UserModel.DuplicateEmail) || r == Err(UserModel.DuplicateUsername)
    ensures UserModel.ValidateUpdate(update.username, update.email, update.name).Ok? ==>
      (r.Err? <==>
        && userId.Some? && userId.value in old(db.users)
        && ((update.email.Some? && EmailHeldByOther(old(db.users), userId.value, update.email.value))
            || (update.username.Some? && UsernameHeldByOther(old(db.users), userId.value, update.username.value))))
    ensures r.Ok? && r.value.Some? ==>
      var u := old(db.users[userId.value]);
      var v := u.(username := if update.username.Some? then update.username.value else u.username,
                  email := if update.email.Some? then update.email.value else u.email,
                  name := if update.name.Some? then update.name.value else u.name,
                  updatedAt := now);
      && v.password == u.password
      && db.users == old(db.users)[userId.value := v] && r.value.value == ProfileOf(v)
  {
    var valid := UserModel.ValidateUpdate(update.username, update.email, update.name);
    if valid.Err? {
      return Err(valid.message);
    }
    if userId.None? || userId.value !in db.users {
      return Ok(None);
    }
    var id := userId.value;
    var u := db.users[id];
    if update.email.Some? && EmailHeldByOther(db.users, id, update.email.value) {
      return Err(UserModel.DuplicateEmail);
    }
    if update.username.Some? && UsernameHeldByOther(db.users, id, update.username.value) {
      return Err(UserModel.DuplicateUsername);
    }
    var v := u.(username := if update.username.Some? then update.username.value else u.username,
                email := if update.email.Some? then update.email.value else u.email,
                name := if update.name.Some? then update.name.value else u.name,
                updatedAt := now);
    PutUser(db.users, db.nextId, v);
    db.users := db.users[id := v];
    r := Ok(Some(ProfileOf(v)));
  }

  /**
   * `changePassword`: the current password must verify against the stored
   * hash; the new one is hashed once and written with `findByIdAndUpdate`,
   * which runs no save hook.
   */
  method ChangePassword(db: Db, userId: Id, current: string, newPassword: string, crypto: Crypto, now: nat)
    returns (r: Result<string>)
    requires db.Valid()
    modifies db
    ensures db.Valid()
    ensures db.songs == old(db.songs) && db.playlists == old(db.playlists) && db.nextId == old(db.nextId)
    ensures r.Err? ==> db.users == old(db.users)
    ensures userId !in old(db.users) ==> r == Err(UserNotFound)
    ensures userId in old(db.users) && !crypto.verify(current, old(db.users[userId].password)) ==>
      r == Err(CurrentPasswordIncorrect)
    ensures r.Ok? <==> userId in old(db.users) && crypto.verify(current, old(db.users[userId].password))
    ensures r.Ok? ==>
      && r.value == PasswordChanged
      && db.users == old(db.users)[userId := old(db.users[userId]).(password := crypto.hash(newPassword), updatedAt := now)]
    ensures r.Ok? && UserModel.BcryptLike(crypto.hash, crypto.verify) ==>
      && AuthenticateUser(db, old(db.users[userId].email), newPassword, crypto).Some?
      && (current != newPassword ==> AuthenticateUser(db, old(db.users[userId].email), current, crypto).None?)
  {
    if userId !in db.users {
      return Err(UserNotFound);
    }
    var u := db.users[userId];
    if !UserModel.ComparePassword(crypto.verify, current, u) {
      return Err(CurrentPasswordIncorrect);
    }
    var v := u.(password := crypto.hash(newPassword), updatedAt := now);
    PutUser(db.users, db.nextId, v);
    db.users := db.users[userId := v];
    assert db.users[userId] == v;
    LookupsFindStored(db, v);
    r := Ok(PasswordChanged);
  }
}
