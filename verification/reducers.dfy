/**
 * `userReducer`: the state of the user list screen and its transitions,
 * one per action type. Every transition builds a new state; the list
 * itself is rewritten only by `map` (update) and `filter` (delete).
 */
module Reducers {
  import opened Wrappers
  import opened ClientTypes
  import opened Actions

  datatype UserState = UserState(
    users: seq<ClientUser>,
    currentUser: Option<ClientUser>,
    loading: bool,
    error: Option<string>)

  /** The state before any action. */
  function InitialState(): (s: UserState)
    ensures s.users == [] && s.currentUser.None? && !s.loading && s.error.None?
  {
    UserState([], None, false, None)
  }

  /** `users.map(u => u.id === updated.id ? updated : u)`. */
  function ReplaceById(users: seq<ClientUser>, updated: ClientUser): (r: seq<ClientUser>)
    ensures |r| == |users|
    ensures forall i :: 0 <= i < |users| ==> r[i] == (if users[i].id == updated.id then updated else users[i])
  {
    if users == [] then []
    else [if users[0].id == updated.id then updated else users[0]] + ReplaceById(users[1..], updated)
  }

  /** `users.filter(u => u.id !== id)`. */
  function RemoveById(users: seq<ClientUser>, id: string): (r: seq<ClientUser>)
    ensures |r| <= |users|
    ensures forall u :: u in r <==> u in users && u.id != id
  {
    if users == [] then []
    else if users[0].id == id then RemoveById(users[1..], id)
    else [users[0]] + RemoveById(users[1..], id)
  }

  /** Filtering keeps order: it distributes over concatenation. */
  lemma {:induction false} RemoveByIdAppend(a: seq<ClientUser>, b: seq<ClientUser>, id: string)
    ensures RemoveById(a + b, id) == RemoveById(a, id) + RemoveById(b, id)
  {
    if a != [] {
      assert (a + b)[1..] == a[1..] + b;
      RemoveByIdAppend(a[1..], b, id);
    } else {
      assert a + b == b;
    }
  }

  /** When no user has the id, the list is left exactly as it was. */
  lemma {:induction false} RemoveByIdAbsent(users: seq<ClientUser>, id: string)
    requires forall i :: 0 <= i < |users| ==> users[i].id != id
    ensures RemoveById(users, id) == users
  {
    if users != [] {
      RemoveByIdAbsent(users[1..], id);
    }
  }

  /** Removing by id twice is removing once. */
  lemma {:induction false} RemoveByIdIdempotent(users: seq<ClientUser>, id: string)
    ensures RemoveById(RemoveById(users, id), id) == RemoveById(users, id)
  {
    var r := RemoveById(users, id);
    forall i | 0 <= i < |r| ensures r[i].id != id {
      assert r[i] in r;
    }
    RemoveByIdAbsent(r, id);
  }

  /** `userReducer(state, action)`. */
  function UserReducer(s: UserState, a: Action): (r: UserState)
    requires WellFormed(a)
    ensures a.kind in RequestTypes ==> r == s.(loading := true, error := None)
    ensures a.kind in FailureTypes ==> r == s.(loading := false, error := Some(a.payload.text))
    ensures a.kind == FETCH_USERS_SUCCESS ==> r == s.(loading := false, users := a.payload.users)
    ensures a.kind == FETCH_USER_SUCCESS ==> r == s.(loading := false, currentUser := Some(a.payload.user))
    ensures a.kind == UPDATE_USER_SUCCESS ==>
      && r.currentUser == Some(a.payload.user) && !r.loading && r.error == s.error
      && |r.users| == |s.users|
      && forall i :: 0 <= i < |s.users| ==>
           r.users[i] == (if s.users[i].id == a.payload.user.id then a.payload.user else s.users[i])
    ensures a.kind == CREATE_USER_SUCCESS ==>
      && r == s.(loading := false, users := r.users)
      && |r.users| == |s.users| + 1 && r.users[..|s.users|] == s.users && r.users[|s.users|] == a.payload.user
    ensures a.kind == DELETE_USER_SUCCESS ==>
      && !r.loading && r.error == s.error
      && r.users == RemoveById(s.users, a.payload.text)
      && (forall u :: u in r.users <==> u in s.users && u.id != a.payload.text)
      && (r.currentUser.None? <==> s.currentUser.None? || s.currentUser.value.id == a.payload.text)
      && (r.currentUser.Some? ==> r.currentUser == s.currentUser)
    ensures a.kind !in AllTypes ==> r == s
  {
    var k := a.kind;
    if k in RequestTypes then s.(loading := true, error := None)
    else if k in FailureTypes then s.(loading := false, error := Some(a.payload.text))
    else if k == FETCH_USERS_SUCCESS then s.(loading := false, users := a.payload.users)
    else if k == FETCH_USER_SUCCESS then s.(loading := false, currentUser := Some(a.payload.user))
    else if k == UPDATE_USER_SUCCESS then
      s.(loading := false, currentUser := Some(a.payload.user), users := ReplaceById(s.users, a.payload.user))
    else if k == CREATE_USER_SUCCESS then s.(loading := false, users := s.users + [a.payload.user])
    else if k == DELETE_USER_SUCCESS then
      var id := a.payload.text;
      s.(loading := false,
         users := RemoveById(s.users, id),
         currentUser := if s.currentUser.Some? && s.currentUser.value.id == id then None else s.currentUser)
    else s
  }
}
