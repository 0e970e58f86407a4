/**
 * The older mock lineage of the backend: HTTP functions over a process-wide
 * list of mock users that is changed in place, by index assignment on
 * update and by `push` on create. Clock readings (`new Date().toISOString()`
 * and `Date.now()`) are parameters, one per reading, so two stamps taken
 * one after the other may differ.
 */
module MockFunctions {
  import opened Wrappers
  import opened Strings

  const OperationSuccessful: string := "Operation successful"
  const OperationFailed: string := "Operation failed"
  const MethodNotAllowed: string := "Method not allowed"
  const InvalidCredentials: string := "Invalid credentials"
  const UserNotFound: string := "User not found"
  const MockEmail: string := "john@example.com"
  const MockPassword: string := "password"
  const TokenPrefix: string := "mock-jwt-token-"

  /** A mock user; besides the id and the timestamps every key may be absent. */
  datatype MockUser = MockUser(
    id: string,
    name: Option<string>,
    email: Option<string>,
    password: Option<string>,
    role: Option<string>,
    createdAt: string,
    updatedAt: string)

  /** A request body: each key a mock user has, possibly absent. */
  datatype MockBody = MockBody(
    id: Option<string>,
    name: Option<string>,
    email: Option<string>,
    password: Option<string>,
    role: Option<string>,
    createdAt: Option<string>,
    updatedAt: Option<string>)

  /** The `data` of a wrapped response. */
  datatype MockData = NoData | LoginData(user: Option<MockUser>, token: string) | UserData(record: MockUser)

  /** `{ success, data, message }`. */
  datatype Wrapped = Wrapped(success: bool, data: MockData, message: string)

  datatype MockResponse = MockResponse(status: int, body: Wrapped)

  /** The key a lookup compares: `u.id` or `u.email`. */
  datatype Field = ById | ByEmail

  /** `wrapResponse`: the given message, or a default chosen by the success flag when none (or "") is given. */
  function WrapResponse(success: bool, data: MockData, message: Option<string>): (w: Wrapped)
    ensures w.success == success && w.data == data
    ensures !Falsy(message) ==> w.message == message.value
    ensures Falsy(message) && success ==> w.message == OperationSuccessful
    ensures Falsy(message) && !success ==> w.message == OperationFailed
  {
    Wrapped(success, data, if Falsy(message) then (if success then OperationSuccessful else OperationFailed) else message.value)
  }

  /** The four clock readings taken while the list is built, in order. */
  datatype BootStamps = BootStamps(johnCreated: string, johnUpdated: string, janeCreated: string, janeUpdated: string)

  /** The two mock users the list starts with, each stamp its own clock reading. */
  function InitialUsers(boot: BootStamps): (users: seq<MockUser>)
    ensures |users| == 2
    ensures users[0].id == "1" && users[0].email == Some(MockEmail) && users[0].role == Some("admin")
    ensures users[1].id == "2" && users[1].email == Some("jane@example.com") && users[1].role == Some("user")
    ensures users[0].password.None? && users[1].password.None?
    ensures users[0].createdAt == boot.johnCreated && users[0].updatedAt == boot.johnUpdated
    ensures users[1].createdAt == boot.janeCreated && users[1].updatedAt == boot.janeUpdated
  {
    [ MockUser("1", Some("John Doe"), Some(MockEmail), None, Some("admin"), boot.johnCreated, boot.johnUpdated),
      MockUser("2", Some("Jane Smith"), Some("jane@example.com"), None, Some("user"), boot.janeCreated, boot.janeUpdated) ]
  }

  /** The value of the compared key, `undefined` as `None`. */
  function Key(u: MockUser, f: Field): Option<string> {
    match f
    case ById => Some(u.id)
    case ByEmail => u.email
  }

  /** `findIndex(u => u[f] === x)`: the first index whose key equals `x`, or -1. */
  function FirstIndex(users: seq<MockUser>, f: Field, x: string): (r: int)
    ensures -1 <= r < |users|
    ensures r >= 0 ==> Key(users[r], f) == Some(x)
    ensures forall j :: 0 <= j < |users| && (r >= 0 ==> j < r) ==> Key(users[j], f) != Some(x)
  {
    if users == [] then -1
    else if Key(users[0], f) == Some(x) then 0
    else
      var r := FirstIndex(users[1..], f, x);
      if r < 0 then -1 else r + 1
  }

  /** `path.split("/").pop()`: the text after the last "/", or the whole path. */
  function LastSegment(path: string): (seg: string)
    ensures Free(seg, "/")
    ensures Free(path, "/") ==> seg == path
  {
    SplitPiecesFree(path, "/");
    SplitLength(path, "/");
    var pieces := Split(path, "/");
    pieces[|pieces| - 1]
  }

  /** The last segment ends the path. */
  lemma LastSegmentIsSuffix(path: string)
    ensures |LastSegment(path)| <= |path|
    ensures path[|path| - |LastSegment(path)|..] == LastSegment(path)
  {
    SplitPiecesFree(path, "/");
    JoinSplit(path, "/");
    JoinEndsWithLast(Split(path, "/"), "/");
  }

  lemma {:induction false} JoinEndsWithLast(pieces: seq<string>, sep: string)
    requires |pieces| >= 1
    ensures var j := Join(pieces, sep); var last := pieces[|pieces| - 1];
      |last| <= |j| && j[|j| - |last|..] == last
  {
    if |pieces| > 1 {
      JoinEndsWithLast(pieces[1..], sep);
      assert pieces[1..][|pieces| - 2] == pieces[|pieces| - 1];
    }
  }

  /** `{ ...u, ...body, updatedAt: now }`: every key the body carries wins, then the stamp. */
  function Merged(u: MockUser, body: MockBody, nowIso: string): (m: MockUser)
    ensures body.id.Some? ==> m.id == body.id.value
    ensures body.id.None? ==> m.id == u.id
    ensures body.name.Some? ==> m.name == body.name
    ensures body.name.None? ==> m.name == u.name
    ensures body.email.Some? ==> m.email == body.email
    ensures body.email.None? ==> m.email == u.email
    ensures body.password.Some? ==> m.password == body.password
    ensures body.password.None? ==> m.password == u.password
    ensures body.role.Some? ==> m.role == body.role
    ensures body.role.None? ==> m.role == u.role
    ensures body.createdAt.Some? ==> m.createdAt == body.createdAt.value
    ensures body.createdAt.None? ==> m.createdAt == u.createdAt
    ensures m.updatedAt == nowIso
  {
    MockUser(
      body.id.GetOr(u.id),
      if body.name.Some? then body.name else u.name,
      if body.email.Some? then body.email else u.email,
      if body.password.Some? then body.password else u.password,
      if body.role.Some? then body.role else u.role,
      body.createdAt.GetOr(u.createdAt),
      nowIso)
  }

  /** Merging the same body twice is merging it once, at the later stamp. */
  lemma MergedIdempotent(u: MockUser, body: MockBody, t1: string, t2: string)
    ensures Merged(Merged(u, body, t1), body, t2) == Merged(u, body, t2)
  {
  }

  /**
   * `{ id: defaultId, ...body, createdAt: createdIso, updatedAt: updatedIso }`:
   * a body id wins, the two stamps (two clock readings) never lose.
   */
  function Fresh(defaultId: string, body: MockBody, createdIso: string, updatedIso: string): (m: MockUser)
    ensures m.createdAt == createdIso && m.updatedAt == updatedIso
    ensures m.id == (if body.id.Some? then body.id.value else defaultId)
    ensures m.name == body.name && m.email == body.email && m.password == body.password && m.role == body.role
  {
    MockUser(body.id.GetOr(defaultId), body.name, body.email, body.password, body.role, createdIso, updatedIso)
  }

  /** Every user's id is its position in the list, counted from one, in decimal. */
  ghost predicate PositionalIds(users: seq<MockUser>) {
    forall i :: 0 <= i < |users| ==> users[i].id == NatToDecimal(i + 1)
  }

  /** Under positional ids no id is shared, and looking up the id "k" finds position k - 1. */
  lemma PositionalIdsLookup(users: seq<MockUser>, k: nat)
    requires PositionalIds(users)
    requires 1 <= k <= |users|
    ensures FirstIndex(users, ById, NatToDecimal(k)) == k - 1
  {
    var r := FirstIndex(users, ById, NatToDecimal(k));
    assert Key(users[k - 1], ById) == Some(NatToDecimal(k));
    if r != k - 1 {
      assert 0 <= r < k - 1;
      NatToDecimalInjective(r + 1, k);
    }
  }

  /** A create request that carries no key at all. */
  const EmptyBody: MockBody := MockBody(None, None, None, None, None, None, None)

  /**
   * A body may carry its own id, and then the list can end up with two
   * users under one id: creating with the id the next create will pick,
   * then creating without an id, appends two users with the same id.
   */
  lemma BodyIdCanDuplicate(users: seq<MockUser>, body: MockBody, c1: string, u1: string, c2: string, u2: string)
    requires body.id == Some(NatToDecimal(|users| + 2))
    ensures var once := users + [Fresh(NatToDecimal(|users| + 1), body, c1, u1)];
      var twice := once + [Fresh(NatToDecimal(|once| + 1), EmptyBody, c2, u2)];
      twice[|users|].id == twice[|users| + 1].id
  {
  }

  class MockUserStore {
    /** The process-wide list of mock users. */
    var users: seq<MockUser>

    ghost predicate Valid()
      reads this
    {
      |users| >= 2
    }

    /** The list as the module starts it. */
    constructor (boot: BootStamps)
      ensures Valid() && users == InitialUsers(boot)
      ensures PositionalIds(users)
    {
      users := InitialUsers(boot);
      assert NatToDecimal(1) == "1" && NatToDecimal(2) == "2";
    }

    /** `mockUsers.findIndex(u => u[f] === x)`. */
    method FindIndex(f: Field, x: string) returns (idx: int)
      ensures idx == FirstIndex(users, f, x)
      ensures idx >= 0 ==> idx < |users| && Key(users[idx], f) == Some(x)
    {
      var i := 0;
      while i < |users|
        invariant 0 <= i <= |users|
        invariant forall j :: 0 <= j < i ==> Key(users[j], f) != Some(x)
      {
        if Key(users[i], f) == Some(x) {
          return i;
        }
        i := i + 1;
      }
      return -1;
    }

    /** `login`: POST only; exactly John's mock credentials get his record and a clock-stamped token, anything else 401. */
    method Login(httpMethod: string, body: MockBody, nowMillis: nat) returns (res: MockResponse)
      ensures httpMethod != "POST" ==> res == MockResponse(405, WrapResponse(false, NoData, Some(MethodNotAllowed)))
      ensures httpMethod == "POST" && (body.email != Some(MockEmail) || body.password != Some(MockPassword)) ==>
        res == MockResponse(401, WrapResponse(false, NoData, Some(InvalidCredentials)))
      ensures httpMethod == "POST" && body.email == Some(MockEmail) && body.password == Some(MockPassword) ==>
        var i := FirstIndex(users, ByEmail, MockEmail);
        res == MockResponse(200, WrapResponse(true,
          LoginData(if i >= 0 then Some(users[i]) else None, TokenPrefix + NatToDecimal(nowMillis)), None))
    {
      if httpMethod != "POST" {
        return MockResponse(405, WrapResponse(false, NoData, Some(MethodNotAllowed)));
      }
      if body.email == Some(MockEmail) && body.password == Some(MockPassword) {
        var i := FindIndex(ByEmail, MockEmail);
        var user := if i >= 0 then Some(users[i]) else None;
        res := MockResponse(200, WrapResponse(true, LoginData(user, TokenPrefix + NatToDecimal(nowMillis)), None));
      } else {
        res := MockResponse(401, WrapResponse(false, NoData, Some(InvalidCredentials)));
      }
    }

    /** `fetchUserData`: the first mock user, whatever the request. */
    method FetchUserData() returns (res: MockResponse)
      requires Valid()
      ensures res == MockResponse(200, WrapResponse(true, UserData(users[0]), None))
    {
      res := MockResponse(200, WrapResponse(true, UserData(users[0]), None));
    }

    /** `getUserById`: the first user whose id is the last path segment, or 404. */
    method GetUserById(path: string) returns (res: MockResponse)
      ensures var i := FirstIndex(users, ById, LastSegment(path));
        && (i >= 0 ==> res == MockResponse(200, WrapResponse(true, UserData(users[i]), None)))
        && (i < 0 ==> res == MockResponse(404, WrapResponse(false, NoData, Some(UserNotFound))))
    {
      var i := FindIndex(ById, LastSegment(path));
      if i >= 0 {
        res := MockResponse(200, WrapResponse(true, UserData(users[i]), None));
      } else {
        res := MockResponse(404, WrapResponse(false, NoData, Some(UserNotFound)));
      }
    }

    /**
     * `updateUserData`: PUT only; the user whose id is the last path segment
     * is replaced by itself overridden with the body and restamped; every
     * other user, and the length, stay as they were.
     */
    method UpdateUserData(httpMethod: string, path: string, body: MockBody, nowIso: string) returns (res: MockResponse)
      requires Valid()
      modifies this
      ensures Valid() && |users| == |old(users)|
      ensures httpMethod != "PUT" ==>
        users == old(users) && res == MockResponse(405, WrapResponse(false, NoData, Some(MethodNotAllowed)))
      ensures httpMethod == "PUT" ==>
        var i := FirstIndex(old(users), ById, LastSegment(path));
        && (i < 0 ==> users == old(users) && res == MockResponse(404, WrapResponse(false, NoData, Some(UserNotFound))))
        && (i >= 0 ==>
             && users == old(users)[i := Merged(old(users)[i], body, nowIso)]
             && res == MockResponse(200, WrapResponse(true, UserData(users[i]), None)))
      ensures PositionalIds(old(users)) && body.id.None? ==> PositionalIds(users)
    {
      if httpMethod != "PUT" {
        return MockResponse(405, WrapResponse(false, NoData, Some(MethodNotAllowed)));
      }
      var i := FindIndex(ById, LastSegment(path));
      if i >= 0 {
        users := users[i := Merged(users[i], body, nowIso)];
        res := MockResponse(200, WrapResponse(true, UserData(users[i]), None));
      } else {
        res := MockResponse(404, WrapResponse(false, NoData, Some(UserNotFound)));
      }
    }

    /**
     * `createUser`: POST only; appends one user whose id is the old length
     * plus one in decimal unless the body gives one, stamped with two
     * clock readings.
     */
    method CreateUser(httpMethod: string, body: MockBody, createdIso: string, updatedIso: string) returns (res: MockResponse)
      requires Valid()
      modifies this
      ensures Valid()
      ensures httpMethod != "POST" ==>
        users == old(users) && res == MockResponse(405, WrapResponse(false, NoData, Some(MethodNotAllowed)))
      ensures httpMethod == "POST" ==>
        var created := Fresh(NatToDecimal(|old(users)| + 1), body, createdIso, updatedIso);
        && users == old(users) + [created]
        && res == MockResponse(201, WrapResponse(true, UserData(created), None))
      ensures PositionalIds(old(users)) && body.id.None? ==> PositionalIds(users)
    {
      if httpMethod != "POST" {
        return MockResponse(405, WrapResponse(false, NoData, Some(MethodNotAllowed)));
      }
      var created := Fresh(NatToDecimal(|users| + 1), body, createdIso, updatedIso);
      users := users + [created];
      res := MockResponse(201, WrapResponse(true, UserData(created), None));
    }
  }

  /**
   * Two successive creates, the first naming the id the second will pick,
   * leave the list ending in two users that share one id.
   */
  method CreateTwiceSharesId(store: MockUserStore, body: MockBody, c1: string, u1: string, c2: string, u2: string)
    requires store.Valid()
    requires body.id == Some(NatToDecimal(|store.users| + 2))
    modifies store
    ensures |store.users| == |old(store.users)| + 2
    ensures store.users[..|old(store.users)|] == old(store.users)
    ensures store.users[|store.users| - 2].id == store.users[|store.users| - 1].id
  {
    var first := store.CreateUser("POST", body, c1, u1);
    var second := store.CreateUser("POST", EmptyBody, c2, u2);
  }
}
