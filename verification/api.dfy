/**
 * The backend's request handlers (`UserController`): login, fetching one
 * or all users, updating a user, creating a user and reading the caller's
 * own profile. Each handler is one sequential step over the repository;
 * the current instant and the key the store picks for a new document are
 * parameters, as is the `JWT_SECRET` setting.
 */
module Api {
  import opened Wrappers
  import opened Strings
  import opened UserEntity
  import opened Tokens
  import opened UserCollection
  import opened AuthMiddleware

  const EmailAndPasswordRequired: string := "Email and password are required"
  const UserNotFound: string := "User not found"
  const InvalidPassword: string := "Invalid password"
  const LoginSuccessful: string := "Login successful"
  const UserFetched: string := "User fetched successfully"
  const UsersFetched: string := "Users fetched successfully"
  const UserIdRequired: string := "User ID is required"
  const NoUpdateData: string := "No update data provided"
  const EmailInUse: string := "Email already in use by another user"
  const UserUpdated: string := "User updated successfully"
  const UpdateFailed: string := "Failed to update user data"
  const NameEmailPasswordRequired: string := "Name, email, and password are required"
  const UserCreated: string := "User created successfully"
  const AuthenticationRequired: string := "Authentication required"
  const ProfileNotFound: string := "User profile not found"
  const ProfileFetched: string := "User profile fetched successfully"

  /** The body of a login request. */
  datatype LoginBody = LoginBody(email: Option<string>, password: Option<string>)

  /** The body of a create request. */
  datatype CreateBody = CreateBody(
    name: Option<string>,
    email: Option<string>,
    password: Option<string>,
    profilePicture: Option<string>,
    role: Option<string>,
    isActive: Option<bool>)

  /** What a successful response carries as `data`. */
  datatype Data =
    | Session(user: PublicUser, token: Jwt)
    | Record(record: User)
    | Records(records: seq<User>)
    | Public(profile: PublicUser)

  /** A response body: `{ success: false, message }`, `{ success: true, data, message }`, or a caught exception. */
  datatype Body =
    | Failure(message: string)
    | Success(data: Data, message: string)
    | Crash(error: string, message: string)

  datatype Response = Response(status: int, body: Body)

  /** `users.find(u => u.email === email)`, as the index of the first match. */
  function FindByEmail(users: seq<User>, email: string): (r: Option<nat>)
    ensures r.Some? ==> r.value < |users| && users[r.value].email == email
    ensures forall j :: 0 <= j < |users| && (r.Some? ==> j < r.value) ==> users[j].email != email
  {
    if users == [] then None
    else if users[0].email == email then Some(0)
    else match FindByEmail(users[1..], email)
      case None => None
      case Some(i) => Some(i + 1)
  }

  /** `users.some(u => u.id !== id && u.email === email)`. */
  function HeldByOther(users: seq<User>, id: string, email: string): (b: bool)
    ensures b <==> exists i :: 0 <= i < |users| && users[i].id != id && users[i].email == email
  {
    if users == [] then false
    else if users[0].id != id && users[0].email == email then true
    else
      var rest := HeldByOther(users[1..], id, email);
      assert forall i :: 0 < i < |users| ==> users[i] == users[1..][i - 1];
      rest
  }

  /**
   * The update is refused as a conflict: it carries a non-empty email that
   * differs from the current one, and another record already holds it.
   */
  predicate EmailConflict(users: seq<User>, id: string, current: UserDoc, p: UserUpdate)
    ensures EmailConflict(users, id, current, p) <==>
      && p.email.Some? && p.email.value != "" && p.email.value != current.email
      && exists i :: 0 <= i < |users| && users[i].id != id && users[i].email == p.email.value
  {
    && !Falsy(p.email)
    && p.email.value != current.email
    && HeldByOther(users, id, p.email.value)
  }

  /** The request lacks what an update needs: an id and at least one field. */
  predicate UpdateMalformed(id: Option<string>, body: Option<UserUpdate>)
    ensures UpdateMalformed(id, body) <==>
      id.None? || id.value == "" || body.None? || body.value == UserUpdate(None, None, None, None, None, None)
  {
    Falsy(id) || body.None? || KeyCount(body.value) == 0
  }

  /** The request lacks a name, an email or a password. */
  predicate CreateMalformed(body: CreateBody)
    ensures !CreateMalformed(body) <==>
      && body.name.Some? && body.name.value != ""
      && body.email.Some? && body.email.value != ""
      && body.password.Some? && body.password.value != ""
  {
    Falsy(body.name) || Falsy(body.email) || Falsy(body.password)
  }

  /** The new user's fields, once the required ones are known to be there. */
  function NewUserOf(body: CreateBody): (n: NewUser)
    requires !CreateMalformed(body)
    ensures n.name == body.name.value && n.email == body.email.value && n.password == body.password.value
    ensures n.profilePicture == body.profilePicture && n.role == body.role && n.isActive == body.isActive
  {
    NewUser(body.name.value, body.email.value, body.password.value, body.profilePicture, body.role, body.isActive)
  }

  /** The token a session for `u` gets: its claims, signed with the configured secret at `now`. */
  function SessionToken(u: User, secretEnv: Option<string>, now: Time): (t: Jwt)
    ensures t.claims == Claims(u.id, u.email, RoleOrUser(u.role))
    ensures t.key == SigningSecret(secretEnv) && t.algorithm == HS256
    ensures t.expiresAt == t.issuedAt + OneDay
  {
    Sign(ClaimsOf(u), SigningSecret(secretEnv), now)
  }

  /**
   * A session token handed out by login or create, sent back as
   * "Bearer <token>", gets through the middleware's JWT fallback with the
   * user's id, email and role for a day, and is refused as invalid or
   * expired from then on. The token text is the library's encoding, of which
   * only the round trip through `decode` is assumed; a real token holds no
   * space, so it cannot contain the scheme prefix.
   */
  lemma SessionTokenAuthenticates(u: User, secretEnv: Option<string>, signedAt: Time, nowMs: Time,
                                  text: string, decode: string -> Option<Jwt>, firebase: string -> Option<Decoded>)
    requires decode(text) == Some(SessionToken(u, secretEnv, signedAt))
    requires text != "" && Free(text, BearerPrefix)
    requires firebase(text).None?
    ensures nowMs / 1000 < signedAt / 1000 + OneDay ==>
      Authenticate(Some(BearerPrefix + text), firebase, JwtVerifier(decode, secretEnv, nowMs))
        == Next(Identity(Some(u.id), Some(u.email), RoleOrUser(u.role)))
    ensures nowMs / 1000 >= signedAt / 1000 + OneDay ==>
      Authenticate(Some(BearerPrefix + text), firebase, JwtVerifier(decode, secretEnv, nowMs))
        == Reject(401, InvalidToken)
  {
    var header := BearerPrefix + text;
    assert header[..|BearerPrefix|] == BearerPrefix;
    BearerTokenOfPrefixed(text);
  }

  class UserController {
    /** The repository every handler reads and writes. */
    const repo: UserRepository
    /** The `JWT_SECRET` setting, if any. */
    const secretEnv: Option<string>

    constructor (repo: UserRepository, secretEnv: Option<string>)
      ensures this.repo == repo && this.secretEnv == secretEnv
    {
      this.repo := repo;
      this.secretEnv := secretEnv;
    }

    /**
     * `login`: 400 without an email and a password; otherwise the first
     * user in listing order with exactly that email, 404 when there is
     * none, 401 when the password differs, else 200 with the user minus
     * its password and a day-long token for its claims.
     */
    method Login(body: LoginBody, now: Time) returns (res: Response)
      requires repo.Valid()
      ensures res.status == 400 <==> Falsy(body.email) || Falsy(body.password)
      ensures res.status == 400 ==> res.body == Failure(EmailAndPasswordRequired)
      ensures res.status == 404 ==> res.body == Failure(UserNotFound)
      ensures res.status == 401 ==> res.body == Failure(InvalidPassword)
      ensures res.status == 404 <==>
        && !Falsy(body.email) && !Falsy(body.password)
        && FindByEmail(repo.Users(), body.email.value).None?
      ensures res.status == 401 <==>
        && !Falsy(body.email) && !Falsy(body.password)
        && var f := FindByEmail(repo.Users(), body.email.value);
           f.Some? && repo.Users()[f.value].password != body.password.value
      ensures res.status == 200 <==>
        && !Falsy(body.email) && !Falsy(body.password)
        && var f := FindByEmail(repo.Users(), body.email.value);
           f.Some? && repo.Users()[f.value].password == body.password.value
      ensures res.status == 200 ==>
        var u := repo.Users()[FindByEmail(repo.Users(), body.email.value).value];
        res.body == Success(Session(StripPassword(u), SessionToken(u, secretEnv, now)), LoginSuccessful)
    {
      if Falsy(body.email) || Falsy(body.password) {
        return Response(400, Failure(EmailAndPasswordRequired));
      }
      var users := repo.GetAllUsers();
      var found := FindByEmail(users, body.email.value);
      if found.None? {
        return Response(404, Failure(UserNotFound));
      }
      var user := users[found.value];
      if body.password.value != user.password {
        return Response(401, Failure(InvalidPassword));
      }
      var token := SessionToken(user, secretEnv, now);
      res := Response(200, Success(Session(StripPassword(user), token), LoginSuccessful));
    }

    /**
     * `fetchUserData`: with an id, that stored record (password included)
     * or 404; without one, every record.
     */
    method FetchUserData(id: Option<string>) returns (res: Response)
      requires repo.Valid()
      ensures Falsy(id) ==> res == Response(200, Success(Records(repo.Users()), UsersFetched))
      ensures !Falsy(id) && id.value in repo.docs ==>
        res == Response(200, Success(Record(WithId(id.value, repo.docs[id.value])), UserFetched))
      ensures !Falsy(id) && id.value !in repo.docs ==> res == Response(404, Failure(UserNotFound))
    {
      if !Falsy(id) {
        var user := repo.GetUserById(id.value);
        if user.None? {
          return Response(404, Failure(UserNotFound));
        }
        res := Response(200, Success(Record(user.value), UserFetched));
      } else {
        var users := repo.GetAllUsers();
        res := Response(200, Success(Records(users), UsersFetched));
      }
    }

    /**
     * `updateUserData`: 400 without an id or without a field to update,
     * 404 for an unknown id, 409 when the new email belongs to another
     * record; the store is written only when none of these applies, and
     * then the answer is the updated record minus its password.
     */
    method UpdateUserData(id: Option<string>, body: Option<UserUpdate>, now: Time) returns (res: Response)
      requires repo.Valid()
      modifies repo
      ensures repo.Valid()
      ensures res.status == 400 <==> UpdateMalformed(id, body)
      ensures res.status == 400 ==> res.body == (if Falsy(id) then Failure(UserIdRequired) else Failure(NoUpdateData))
      ensures res.status == 404 ==> res.body == Failure(UserNotFound)
      ensures res.status == 409 ==> res.body == Failure(EmailInUse)
      ensures res.status == 404 <==> !UpdateMalformed(id, body) && id.value !in old(repo.docs)
      ensures res.status == 409 <==>
        && !UpdateMalformed(id, body) && id.value in old(repo.docs)
        && EmailConflict(old(repo.Users()), id.value, old(repo.docs)[id.value], body.value)
      ensures res.status != 200 ==> repo.docs == old(repo.docs) && repo.keys == old(repo.keys)
      ensures res.status == 200 <==>
        && !UpdateMalformed(id, body) && id.value in old(repo.docs)
        && !EmailConflict(old(repo.Users()), id.value, old(repo.docs)[id.value], body.value)
      ensures res.status == 200 ==>
        && repo.docs == old(repo.docs)[id.value := Patched(old(repo.docs)[id.value], body.value, now)]
        && repo.keys == old(repo.keys)
        && res.body == Success(Public(StripPassword(WithId(id.value, repo.docs[id.value]))), UserUpdated)
    {
      if Falsy(id) {
        return Response(400, Failure(UserIdRequired));
      }
      if body.None? || KeyCount(body.value) == 0 {
        return Response(400, Failure(NoUpdateData));
      }
      var userId, patch := id.value, body.value;
      var existing := repo.GetUserById(userId);
      if existing.None? {
        return Response(404, Failure(UserNotFound));
      }
      if !Falsy(patch.email) && patch.email.value != existing.value.email {
        var users := repo.GetAllUsers();
        if HeldByOther(users, userId, patch.email.value) {
          return Response(409, Failure(EmailInUse));
        }
      }
      var updated := repo.UpdateUser(userId, patch, now);
      match updated
      case Err(thrown) =>
        res := Response(500, Crash(UpdateFailed, thrown));
      case Ok(record) =>
        res := Response(200, Success(Public(StripPassword(record)), UserUpdated));
    }

    /**
     * `createUser`: 400 without a name, an email and a password; otherwise
     * the user is stored under the fresh key, with no check that its email
     * is unused, and the answer is 201 with the new user minus its password
     * and a day-long token for its claims. The record's timestamps and the
     * token's issue time are two separate clock readings: `now` is taken by
     * the repository, `signedAt` by the signer once the write has finished.
     */
    method CreateUser(body: CreateBody, now: Time, signedAt: Time, freshId: string) returns (res: Response)
      requires repo.Valid()
      requires freshId !in repo.docs
      modifies repo
      ensures repo.Valid()
      ensures res.status == 400 <==> CreateMalformed(body)
      ensures res.status == 400 ==> repo.docs == old(repo.docs) && repo.keys == old(repo.keys)
      ensures res.status == 400 ==> res.body == Failure(NameEmailPasswordRequired)
      ensures res.status == 201 <==> !CreateMalformed(body)
      ensures res.status == 201 ==>
        var u := WithId(freshId, Created(NewUserOf(body), now));
        && repo.docs == old(repo.docs)[freshId := Created(NewUserOf(body), now)]
        && repo.keys == old(repo.keys) + [freshId]
        && res.body == Success(Session(StripPassword(u), SessionToken(u, secretEnv, signedAt)), UserCreated)
    {
      if CreateMalformed(body) {
        return Response(400, Failure(NameEmailPasswordRequired));
      }
      var user := repo.CreateUser(NewUserOf(body), now, freshId);
      var token := SessionToken(user, secretEnv, signedAt);
      res := Response(201, Success(Session(StripPassword(user), token), UserCreated));
    }

    /**
     * `getUserProfile`: 401 when the request carries no uid, 404 when no
     * record has it, else that record minus its password.
     */
    method GetUserProfile(user: Option<Identity>) returns (res: Response)
      requires repo.Valid()
      ensures user.None? || Falsy(user.value.uid) ==> res == Response(401, Failure(AuthenticationRequired))
      ensures user.Some? && !Falsy(user.value.uid) && user.value.uid.value !in repo.docs ==>
        res == Response(404, Failure(ProfileNotFound))
      ensures user.Some? && !Falsy(user.value.uid) && user.value.uid.value in repo.docs ==>
        var uid := user.value.uid.value;
        res == Response(200, Success(Public(StripPassword(WithId(uid, repo.docs[uid]))), ProfileFetched))
    {
      if user.None? || Falsy(user.value.uid) {
        return Response(401, Failure(AuthenticationRequired));
      }
      var record := repo.GetUserById(user.value.uid.value);
      if record.None? {
        return Response(404, Failure(ProfileNotFound));
      }
      res := Response(200, Success(Public(StripPassword(record.value)), ProfileFetched));
    }
  }
}
