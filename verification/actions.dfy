/**
 * The action vocabulary of the user reducer: fifteen type strings, one
 * request, success and failure triple per operation, and the creators that
 * build `{ type, payload }` objects from them.
 */
module Actions {
  import opened ClientTypes

  const FETCH_USERS_REQUEST: string := "FETCH_USERS_REQUEST"
  const FETCH_USERS_SUCCESS: string := "FETCH_USERS_SUCCESS"
  const FETCH_USERS_FAILURE: string := "FETCH_USERS_FAILURE"

  const FETCH_USER_REQUEST: string := "FETCH_USER_REQUEST"
  const FETCH_USER_SUCCESS: string := "FETCH_USER_SUCCESS"
  const FETCH_USER_FAILURE: string := "FETCH_USER_FAILURE"

  const UPDATE_USER_REQUEST: string := "UPDATE_USER_REQUEST"
  const UPDATE_USER_SUCCESS: string := "UPDATE_USER_SUCCESS"
  const UPDATE_USER_FAILURE: string := "UPDATE_USER_FAILURE"

  const CREATE_USER_REQUEST: string := "CREATE_USER_REQUEST"
  const CREATE_USER_SUCCESS: string := "CREATE_USER_SUCCESS"
  const CREATE_USER_FAILURE: string := "CREATE_USER_FAILURE"

  const DELETE_USER_REQUEST: string := "DELETE_USER_REQUEST"
  const DELETE_USER_SUCCESS: string := "DELETE_USER_SUCCESS"
  const DELETE_USER_FAILURE: string := "DELETE_USER_FAILURE"

  /** What an action carries as `payload`. */
  datatype Payload =
    | NoPayload
    | Users(users: seq<ClientUser>)
    | OneUser(user: ClientUser)
    | Text(text: string)
    | UpdateParams(userId: string, userData: UpdateRequest)
    | NewUser(data: NewUserData)

  /** `{ type, payload }`. */
  datatype Action = Action(kind: string, payload: Payload)

  /** Every action type, in declaration order. */
  const AllTypes: seq<string> := [
    FETCH_USERS_REQUEST, FETCH_USERS_SUCCESS, FETCH_USERS_FAILURE,
    FETCH_USER_REQUEST, FETCH_USER_SUCCESS, FETCH_USER_FAILURE,
    UPDATE_USER_REQUEST, UPDATE_USER_SUCCESS, UPDATE_USER_FAILURE,
    CREATE_USER_REQUEST, CREATE_USER_SUCCESS, CREATE_USER_FAILURE,
    DELETE_USER_REQUEST, DELETE_USER_SUCCESS, DELETE_USER_FAILURE]

  const RequestTypes: set<string> :=
    {FETCH_USERS_REQUEST, FETCH_USER_REQUEST, UPDATE_USER_REQUEST, CREATE_USER_REQUEST, DELETE_USER_REQUEST}

  const FailureTypes: set<string> :=
    {FETCH_USERS_FAILURE, FETCH_USER_FAILURE, UPDATE_USER_FAILURE, CREATE_USER_FAILURE, DELETE_USER_FAILURE}

  /** The fifteen type strings are pairwise distinct, so no two actions are confused. */
  lemma TypesDistinct()
    ensures |AllTypes| == 15
    ensures forall i, j :: 0 <= i < j < |AllTypes| ==> AllTypes[i] != AllTypes[j]
  {
  }

  /**
   * The payload has the shape the reducer reads for the action's type: a
   * list for FETCH_USERS_SUCCESS, a user for the other user-carrying
   * successes, a string for DELETE_USER_SUCCESS and every failure.
   */
  predicate WellFormed(a: Action) {
    && (a.kind == FETCH_USERS_SUCCESS ==> a.payload.Users?)
    && (a.kind in {FETCH_USER_SUCCESS, UPDATE_USER_SUCCESS, CREATE_USER_SUCCESS} ==> a.payload.OneUser?)
    && (a.kind == DELETE_USER_SUCCESS ==> a.payload.Text?)
    && (a.kind in FailureTypes ==> a.payload.Text?)
  }

  function FetchUsersRequest(): (a: Action)
    ensures a.kind == FETCH_USERS_REQUEST && a.payload == NoPayload && WellFormed(a)
  {
    Action(FETCH_USERS_REQUEST, NoPayload)
  }

  function FetchUsersSuccess(users: seq<ClientUser>): (a: Action)
    ensures a.kind == FETCH_USERS_SUCCESS && a.payload == Users(users) && WellFormed(a)
  {
    Action(FETCH_USERS_SUCCESS, Users(users))
  }

  function FetchUsersFailure(error: string): (a: Action)
    ensures a.kind == FETCH_USERS_FAILURE && a.payload == Text(error) && WellFormed(a)
  {
    Action(FETCH_USERS_FAILURE, Text(error))
  }

  function FetchUserRequest(userId: string): (a: Action)
    ensures a.kind == FETCH_USER_REQUEST && a.payload == Text(userId) && WellFormed(a)
  {
    Action(FETCH_USER_REQUEST, Text(userId))
  }

  function FetchUserSuccess(user: ClientUser): (a: Action)
    ensures a.kind == FETCH_USER_SUCCESS && a.payload == OneUser(user) && WellFormed(a)
  {
    Action(FETCH_USER_SUCCESS, OneUser(user))
  }

  function FetchUserFailure(error: string): (a: Action)
    ensures a.kind == FETCH_USER_FAILURE && a.payload == Text(error) && WellFormed(a)
  {
    Action(FETCH_USER_FAILURE, Text(error))
  }

  function UpdateUserRequest(userId: string, userData: UpdateRequest): (a: Action)
    ensures a.kind == UPDATE_USER_REQUEST && a.payload == UpdateParams(userId, userData) && WellFormed(a)
  {
    Action(UPDATE_USER_REQUEST, UpdateParams(userId, userData))
  }

  function UpdateUserSuccess(user: ClientUser): (a: Action)
    ensures a.kind == UPDATE_USER_SUCCESS && a.payload == OneUser(user) && WellFormed(a)
  {
    Action(UPDATE_USER_SUCCESS, OneUser(user))
  }

  function UpdateUserFailure(error: string): (a: Action)
    ensures a.kind == UPDATE_USER_FAILURE && a.payload == Text(error) && WellFormed(a)
  {
    Action(UPDATE_USER_FAILURE, Text(error))
  }

  function CreateUserRequest(userData: NewUserData): (a: Action)
    ensures a.kind == CREATE_USER_REQUEST && a.payload == NewUser(userData) && WellFormed(a)
  {
    Action(CREATE_USER_REQUEST, NewUser(userData))
  }

  function CreateUserSuccess(user: ClientUser): (a: Action)
    ensures a.kind == CREATE_USER_SUCCESS && a.payload == OneUser(user) && WellFormed(a)
  {
    Action(CREATE_USER_SUCCESS, OneUser(user))
  }

  function CreateUserFailure(error: string): (a: Action)
    ensures a.kind == CREATE_USER_FAILURE && a.payload == Text(error) && WellFormed(a)
  {
    Action(CREATE_USER_FAILURE, Text(error))
  }

  function DeleteUserRequest(userId: string): (a: Action)
    ensures a.kind == DELETE_USER_REQUEST && a.payload == Text(userId) && WellFormed(a)
  {
    Action(DELETE_USER_REQUEST, Text(userId))
  }

  function DeleteUserSuccess(userId: string): (a: Action)
    ensures a.kind == DELETE_USER_SUCCESS && a.payload == Text(userId) && WellFormed(a)
  {
    Action(DELETE_USER_SUCCESS, Text(userId))
  }

  function DeleteUserFailure(error: string): (a: Action)
    ensures a.kind == DELETE_USER_FAILURE && a.payload == Text(error) && WellFormed(a)
  {
    Action(DELETE_USER_FAILURE, Text(error))
  }
}
