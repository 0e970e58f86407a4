/**
 * The frontend's view of a user (`User` as the client API declares it) and
 * the request shapes its actions carry. The client only ever tests `name`
 * and `email` for presence, so those two may be absent.
 */
module ClientTypes {
  import opened Wrappers

  datatype ClientUser = ClientUser(
    id: string,
    name: Option<string>,
    email: Option<string>,
    createdAt: string,
    updatedAt: string,
    profilePicture: Option<string>,
    role: Option<string>,
    isActive: Option<bool>)

  /** `UserUpdateRequest`: every field may be left out. */
  datatype UpdateRequest = UpdateRequest(
    name: Option<string>,
    email: Option<string>,
    profilePicture: Option<string>,
    role: Option<string>,
    isActive: Option<bool>)

  /** `Omit<User, 'id' | 'createdAt' | 'updatedAt'>`: the data a new user is created from. */
  datatype NewUserData = NewUserData(
    name: Option<string>,
    email: Option<string>,
    profilePicture: Option<string>,
    role: Option<string>,
    isActive: Option<bool>)
}
