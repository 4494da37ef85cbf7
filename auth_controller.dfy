/**
 * The handlers of `/api/auth`: registration, login, the current profile and
 * profile updates. Each handler validates its body against its schema and
 * maps the authentication service's outcome to a status.
 */
module AuthController {
  import opened Wrappers
  import opened Schema
  import opened Http
  import Text
  import UserModel
  import opened AuthService
  import opened Store

  const InvalidInput := "Invalid input data"
  const EmailInUse := "User with this email already exists"
  const UsernameInUse := "Username is already taken"
  const RegistrationFailed := "Internal server error during registration"
  const InvalidCredentials := "Invalid email or password"
  const AuthenticationRequired := "Authentication required"
  const ProfileUpdateFailed := "Failed to update profile"

  const Registered := "User registered successfully"
  const LoggedIn := "Login successful"
  const ProfileUpdated := "Profile updated successfully"

  /** Every body the registration schema admits satisfies the model's `required` validators. */
  lemma SchemaImpliesRequired(u: InsertUser)
    requires ValidInsertUser(u)
    ensures UserModel.Validate(u.username, u.email, u.password, u.name).Ok?
  {
  }

  /**
   * `POST /api/auth/register`: an invalid body is a 400 before any lookup;
   * a taken e-mail is a 409, checked before a taken username; otherwise the
   * user is created and a session returned with 201. The 500 of the catch
   * block answers only a database failure, which this model does not have:
   * once both lookups come back empty, creation succeeds.
   */
  method RegisterHandler(db: Db, body: Body, crypto: Crypto, now: nat) returns (reply: Reply<Session>)
    requires db.Valid()
    modifies db
    ensures db.Valid()
    ensures db.songs == old(db.songs) && db.playlists == old(db.playlists)
    ensures reply.Failure? ==> db.users == old(db.users) && db.nextId == old(db.nextId)
    ensures ParseInsertUser(body).None? ==> reply == Failure(400, InvalidInput)
    ensures ParseInsertUser(body).Some? ==>
      var data := ParseInsertUser(body).value;
      && (EmailTaken(old(db.users), data.email) ==> reply == Failure(409, EmailInUse))
      && (!EmailTaken(old(db.users), data.email) && UsernameTaken(old(db.users), data.username) ==>
            reply == Failure(409, UsernameInUse))
      && (!EmailTaken(old(db.users), data.email) && !UsernameTaken(old(db.users), data.username) ==>
            && reply.Success? && reply.status == 201 && reply.message == Some(Registered)
            && reply.data.user.id !in old(db.users)
            && reply.data.user == User(reply.data.user.id, data.username, data.email, data.name, crypto.hash(data.password), now, now)
            && db.users == old(db.users)[reply.data.user.id := reply.data.user])
    ensures reply.Success? && UserModel.BcryptLike(crypto.hash, crypto.verify) ==>
      LoginReply(db, map["email" := JString(reply.data.user.email), "password" := JString(ParseInsertUser(body).value.password)], crypto)
        == Success(200, reply.data, Some(LoggedIn))
  {
    var data := ParseInsertUser(body);
    if data.None? {
      return Failure(400, InvalidInput);
    }
    ValidIdsIssued(db);
    if FindUserByEmail(db, data.value.email).Some? {
      return Failure(409, EmailInUse);
    }
    if FindUserByUsername(db, data.value.username).Some? {
      return Failure(409, UsernameInUse);
    }
    SchemaImpliesRequired(data.value);
    var created := CreateUser(db, data.value, crypto, now);
    assert created.Ok?;
    reply := Success(201, created.value, Some(Registered));
    if UserModel.BcryptLike(crypto.hash, crypto.verify) {
      SessionLogsIn(db, data.value, created.value, crypto);
    }
  }

  /**
   * `POST /api/auth/register` as written, over the service as written: the
   * statuses are those of `RegisterHandler`, but the stored password is a
   * hash of the hash, the token names no user, and a save that fails (a
   * hash that is empty, for `required`) reaches the catch block's 500.
   * Logging in right after registering is refused.
   */
  method RegisterHandlerAsWritten(db: Db, body: Body, crypto: Crypto, now: nat) returns (reply: Reply<Session>)
    requires db.Valid()
    modifies db
    ensures db.Valid()
    ensures db.songs == old(db.songs) && db.playlists == old(db.playlists)
    ensures reply.Failure? ==> db.users == old(db.users) && db.nextId == old(db.nextId)
    ensures ParseInsertUser(body).None? ==> reply == Failure(400, InvalidInput)
    ensures ParseInsertUser(body).Some? ==>
      var data := ParseInsertUser(body).value;
      && (EmailTaken(old(db.users), data.email) ==> reply == Failure(409, EmailInUse))
      && (!EmailTaken(old(db.users), data.email) && UsernameTaken(old(db.users), data.username) ==>
            reply == Failure(409, UsernameInUse))
      && (!EmailTaken(old(db.users), data.email) && !UsernameTaken(old(db.users), data.username) ==>
            && (crypto.hash(data.password) == [] ==> reply == Failure(500, RegistrationFailed))
            && (crypto.hash(data.password) != [] ==>
                  && reply.Success? && reply.status == 201 && reply.message == Some(Registered)
                  && reply.data.user.id !in old(db.users)
                  && reply.data.user == User(reply.data.user.id, data.username, data.email, data.name,
                                             crypto.hash(crypto.hash(data.password)), now, now)
                  && reply.data.token == crypto.sign(None)
                  && db.users == old(db.users)[reply.data.user.id := reply.data.user]))
    ensures reply.Success? && UserModel.BcryptLike(crypto.hash, crypto.verify)
            && crypto.hash(ParseInsertUser(body).value.password) != ParseInsertUser(body).value.password ==>
      LoginReplyAsWritten(db, map["email" := JString(reply.data.user.email), "password" := JString(ParseInsertUser(body).value.password)], crypto)
        == Failure(401, InvalidCredentials)
  {
    var data := ParseInsertUser(body);
    if data.None? {
      return Failure(400, InvalidInput);
    }
    ValidIdsIssued(db);
    if FindUserByEmail(db, data.value.email).Some? {
      return Failure(409, EmailInUse);
    }
    if FindUserByUsername(db, data.value.username).Some? {
      return Failure(409, UsernameInUse);
    }
    var created := CreateUserAsWritten(db, data.value, crypto, now);
    if created.Err? {
      return Failure(500, RegistrationFailed);
    }
    reply := Success(201, created.value, Some(Registered));
    if UserModel.BcryptLike(crypto.hash, crypto.verify) && crypto.hash(data.value.password) != data.value.password {
      RegisteredLoginRefused(db, data.value, crypto);
    }
  }

  /** When the service finds no session for a registration's own credentials, logging in with them is a 401. */
  lemma RegisteredLoginRefused(db: Db, data: InsertUser, crypto: Crypto)
    requires db.Valid() && ValidInsertUser(data)
    requires AuthenticateUserAsWritten(db, data.email, data.password, crypto).None?
    ensures LoginReplyAsWritten(db, map["email" := JString(data.email), "password" := JString(data.password)], crypto)
      == Failure(401, InvalidCredentials)
  {
    var body := map["email" := JString(data.email), "password" := JString(data.password)];
    assert ParseLoginUser(body) == Some(LoginUser(data.email, data.password));
  }

  /** A session the service hands out for a registration is what logging in with its e-mail and password returns. */
  lemma SessionLogsIn(db: Db, data: InsertUser, session: Session, crypto: Crypto)
    requires db.Valid() && ValidInsertUser(data)
    requires AuthenticateUser(db, data.email, data.password, crypto) == Some(session)
    requires session.user.email == data.email
    ensures LoginReply(db, map["email" := JString(session.user.email), "password" := JString(data.password)], crypto)
      == Success(200, session, Some(LoggedIn))
  {
    var body := map["email" := JString(session.user.email), "password" := JString(data.password)];
    assert ParseLoginUser(body) == Some(LoginUser(data.email, data.password));
  }

  /**
   * `POST /api/auth/login`: an invalid body is a 400; an unknown e-mail and
   * a wrong password give the same 401.
   */
  function LoginReply(db: Db, body: Body, crypto: Crypto): (r: Reply<Session>)
    requires db.Valid()
    reads db
    ensures ParseLoginUser(body).None? ==> r == Failure(400, InvalidInput)
    ensures ParseLoginUser(body).Some? ==>
      (r.Success? <==> exists u :: u in db.users.Values && u.email == ParseLoginUser(body).value.email
                                  && crypto.verify(ParseLoginUser(body).value.password, u.password))
    ensures ParseLoginUser(body).Some? && r.Failure? ==> r == Failure(401, InvalidCredentials)
    ensures r.Success? ==>
      && r.status == 200 && r.message == Some(LoggedIn)
      && r.data.user in db.users.Values && r.data.user.email == ParseLoginUser(body).value.email
      && r.data.token == crypto.sign(Some(r.data.user.id))
  {
    match ParseLoginUser(body)
    case None => Failure(400, InvalidInput)
    case Some(l) =>
      match AuthenticateUser(db, l.email, l.password, crypto)
      case None => Failure(401, InvalidCredentials)
      case Some(session) => Success(200, session, Some(LoggedIn))
  }

  /**
   * `POST /api/auth/login` as written, over the service as written: the
   * same statuses as `LoginReply`, but the token of every session is signed
   * for no user.
   */
  function LoginReplyAsWritten(db: Db, body: Body, crypto: Crypto): (r: Reply<Session>)
    requires db.Valid()
    reads db
    ensures ParseLoginUser(body).None? ==> r == Failure(400, InvalidInput)
    ensures ParseLoginUser(body).Some? ==>
      (r.Success? <==> exists u :: u in db.users.Values && u.email == ParseLoginUser(body).value.email
                                  && crypto.verify(ParseLoginUser(body).value.password, u.password))
    ensures ParseLoginUser(body).Some? && r.Failure? ==> r == Failure(401, InvalidCredentials)
    ensures r.Success? ==>
      && r.status == 200 && r.message == Some(LoggedIn)
      && r.data.user in db.users.Values && r.data.user.email == ParseLoginUser(body).value.email
      && r.data.token == crypto.sign(None)
  {
    match ParseLoginUser(body)
    case None => Failure(400, InvalidInput)
    case Some(l) =>
      match AuthenticateUserAsWritten(db, l.email, l.password, crypto)
      case None => Failure(401, InvalidCredentials)
      case Some(session) => Success(200, session, Some(LoggedIn))
  }

  /**
   * The login reply never tells an unknown e-mail from a wrong password:
   * for a well-formed body either failure is the same 401.
   */
  lemma LoginFailuresIndistinguishable(db: Db, b1: Body, b2: Body, crypto: Crypto)
    requires db.Valid()
    requires ParseLoginUser(b1).Some? && ParseLoginUser(b2).Some?
    requires !EmailTaken(db.users, ParseLoginUser(b1).value.email)
    requires LoginReply(db, b2, crypto).Failure?
    ensures LoginReply(db, b1, crypto) == LoginReply(db, b2, crypto)
    ensures LoginReplyAsWritten(db, b1, crypto) == LoginReplyAsWritten(db, b2, crypto)
  {
  }

  /** `GET /api/auth/me`: the claims the authentication middleware attached, unchanged. */
  function ProfileReply<T>(user: Option<T>): (r: Reply<T>)
    ensures r.Failure? <==> user.None?
    ensures r.Failure? ==> r == Failure(401, AuthenticationRequired)
    ensures r.Success? ==> r.status == 200 && r.data == user.value && r.message.None?
  {
    match user
    case None => Failure(401, AuthenticationRequired)
    case Some(u) => Success(200, u, None)
  }

  /** The inline schema of `updateProfile`; any other key of the body is stripped. */
  datatype ProfileChange = ProfileChange(name: Option<string>, username: Option<string>)

  predicate ValidProfileChange(c: ProfileChange) {
    && (c.name.Some? ==> LengthIn(c.name.value, 1, 100))
    && (c.username.Some? ==> LengthIn(c.username.value, 3, 50))
  }

  function ParseProfileChange(b: Body): (r: Option<ProfileChange>)
    ensures r.Some? <==>
      && OptionalString(b, "name").Some? && OptionalString(b, "username").Some?
      && ValidProfileChange(ProfileChange(OptionalString(b, "name").value, OptionalString(b, "username").value))
    ensures r.Some? ==> r.value == ProfileChange(OptionalString(b, "name").value, OptionalString(b, "username").value)
  {
    var name := OptionalString(b, "name");
    var username := OptionalString(b, "username");
    if name.None? || username.None? then None
    else
      var c := ProfileChange(name.value, username.value);
      if ValidProfileChange(c) then Some(c) else None
  }

  /** The update a profile change asks the service for: never an e-mail, never a password. */
  function UpdateOf(c: ProfileChange): (u: UserUpdate)
    ensures u.email.None? && u.password.None?
    ensures u.name == c.name && u.username == c.username
  {
    UserUpdate(c.username, None, None, c.name)
  }

  /** A valid profile change always passes the model's update validators. */
  lemma ProfileChangePassesValidators(c: ProfileChange)
    requires ValidProfileChange(c)
    ensures UserModel.ValidateUpdate(UpdateOf(c).username, UpdateOf(c).email, UpdateOf(c).name).Ok?
  {
  }

  /** The error `updateProfile` reports: a "duplicate" message is a conflict on the username. */
  function ProfileUpdateFailure(message: string): (r: Reply<Option<Profile>>)
    ensures r.Failure?
    ensures r.status == 409 <==> Text.Contains(message, "duplicate")
    ensures r.status == 409 ==> r.error == UsernameInUse
    ensures r.status != 409 ==> r == Failure(500, ProfileUpdateFailed)
  {
    if Text.Contains(message, "duplicate") then Failure(409, UsernameInUse)
    else Failure(500, ProfileUpdateFailed)
  }

  /** Both unique-index errors of the users collection are reported as conflicts. */
  lemma DuplicateUserKeysAreConflicts()
    ensures ProfileUpdateFailure(UserModel.DuplicateUsername) == Failure(409, UsernameInUse)
    ensures ProfileUpdateFailure(UserModel.DuplicateEmail) == Failure(409, UsernameInUse)
  {
  }

  /**
   * `PUT /api/auth/profile`: a signed-in caller may change its name and
   * username; `userId` is the `_id` claim of the caller, if it has one. A
   * username held by another user is a 409; an id that names no user is a
   * 200 whose data is `null`.
   */
  method UpdateProfileHandler(db: Db, signedIn: bool, userId: Option<Id>, body: Body, now: nat)
    returns (reply: Reply<Option<Profile>>)
    requires db.Valid()
    modifies db
    ensures db.Valid()
    ensures db.songs == old(db.songs) && db.playlists == old(db.playlists) && db.nextId == old(db.nextId)
    ensures !(reply.Success? && reply.data.Some?) ==> db.users == old(db.users)
    ensures !signedIn ==> reply == Failure(401, AuthenticationRequired)
    ensures signedIn && ParseProfileChange(body).None? ==> reply == Failure(400, InvalidInput)
    ensures signedIn && ParseProfileChange(body).Some? ==>
      && (reply.Failure? ==> reply == Failure(409, UsernameInUse))
      && (reply.Failure? <==>
            && userId.Some? && userId.value in old(db.users) && ParseProfileChange(body).value.username.Some?
            && UsernameHeldByOther(old(db.users), userId.value, ParseProfileChange(body).value.username.value))
      && (reply.Success? ==> reply.status == 200 && reply.message == Some(ProfileUpdated))
      && (reply.Success? && reply.data.None? <==> userId.None? || userId.value !in old(db.users))
    ensures reply.Success? && reply.data.Some? ==>
      var c := ParseProfileChange(body).value;
      var u := old(db.users[userId.value]);
      && userId.Some? && userId.value in old(db.users) && userId.value in db.users
      && reply.data.value.id == userId.value
      && db.users[userId.value].password == u.password && db.users[userId.value].email == u.email
      && db.users[userId.value].name == (if c.name.Some? then c.name.value else u.name)
      && db.users[userId.value].username == (if c.username.Some? then c.username.value else u.username)
      && db.users == old(db.users)[userId.value := db.users[userId.value]]
      && db.users[userId.value] == u.(name := db.users[userId.value].name, username := db.users[userId.value].username, updatedAt := now)
      && reply.data.value == ProfileOf(db.users[userId.value])
  {
    if !signedIn {
      return Failure(401, AuthenticationRequired);
    }
    var change := ParseProfileChange(body);
    if change.None? {
      return Failure(400, InvalidInput);
    }
    ProfileChangePassesValidators(change.value);
    var updated := UpdateUser(db, userId, UpdateOf(change.value), now);
    if updated.Err? {
      return ProfileUpdateFailure(updated.message);
    }
    reply := Success(200, updated.value, Some(ProfileUpdated));
  }
}
