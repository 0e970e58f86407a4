/**
 * The backend's user record shapes: `User` and `UserUpdateRequest`, the
 * stored document a user's fields live in, and the password-free view the
 * handlers send back.
 */
module UserEntity {
  import opened Wrappers
  import opened Strings

  /** An instant as `new Date()` gives it, in milliseconds since the epoch. */
  type Time = int

  /** The fields of a stored user document; the document's key is the user's id. */
  datatype UserDoc = UserDoc(
    name: string,
    email: string,
    password: string,
    createdAt: Time,
    updatedAt: Time,
    profilePicture: Option<string>,
    role: Option<string>,
    isActive: Option<bool>)

  /** A user record: a stored document together with its key as `id`. */
  datatype User = User(
    id: string,
    name: string,
    email: string,
    password: string,
    createdAt: Time,
    updatedAt: Time,
    profilePicture: Option<string>,
    role: Option<string>,
    isActive: Option<bool>)

  /** A user record with its password taken out, as every handler but one sends it. */
  datatype PublicUser = PublicUser(
    id: string,
    name: string,
    email: string,
    createdAt: Time,
    updatedAt: Time,
    profilePicture: Option<string>,
    role: Option<string>,
    isActive: Option<bool>)

  /** An update request: every field may be left out. */
  datatype UserUpdate = UserUpdate(
    name: Option<string>,
    email: Option<string>,
    password: Option<string>,
    profilePicture: Option<string>,
    role: Option<string>,
    isActive: Option<bool>)

  /** The fields a new user is created from (id and both timestamps are the store's). */
  datatype NewUser = NewUser(
    name: string,
    email: string,
    password: string,
    profilePicture: Option<string>,
    role: Option<string>,
    isActive: Option<bool>)

  /** `role || "user"`: the role, or "user" when it is absent or empty. */
  function RoleOrUser(role: Option<string>): (r: string)
    ensures r != ""
    ensures !Falsy(role) ==> r == role.value
    ensures Falsy(role) ==> r == "user"
  {
    if Falsy(role) then "user" else role.value
  }

  /** The record a document stored under `id` reads back as: `{ id: doc.id, ...doc.data() }`. */
  function WithId(id: string, d: UserDoc): (u: User)
    ensures u.id == id
    ensures u.name == d.name && u.email == d.email && u.password == d.password
    ensures u.createdAt == d.createdAt && u.updatedAt == d.updatedAt
    ensures u.profilePicture == d.profilePicture && u.role == d.role && u.isActive == d.isActive
  {
    User(id, d.name, d.email, d.password, d.createdAt, d.updatedAt, d.profilePicture, d.role, d.isActive)
  }

  /** `const { password, ...rest } = user`: everything but the password. */
  function StripPassword(u: User): (p: PublicUser)
  {
    PublicUser(u.id, u.name, u.email, u.createdAt, u.updatedAt, u.profilePicture, u.role, u.isActive)
  }

  /**
   * Only the password is lost: two records look the same once stripped
   * exactly when they differ in nothing but the password.
   */
  lemma StripPasswordForgetsOnlyPassword(u: User, v: User)
    ensures StripPassword(u) == StripPassword(v) <==> u.(password := v.password) == v
  {
  }

  /** The number of fields an update request carries: `Object.keys(update).length`. */
  function KeyCount(p: UserUpdate): (n: nat)
    ensures n <= 6
    ensures n == 0 <==> p == UserUpdate(None, None, None, None, None, None)
  {
    (if p.name.Some? then 1 else 0) + (if p.email.Some? then 1 else 0)
    + (if p.password.Some? then 1 else 0) + (if p.profilePicture.Some? then 1 else 0)
    + (if p.role.Some? then 1 else 0) + (if p.isActive.Some? then 1 else 0)
  }
}
