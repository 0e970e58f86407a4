/**
 * The user repository over the USERS document collection. The collection
 * is a map from document key to stored fields, together with the order in
 * which a read of the whole collection lists the documents. The current
 * instant and the key the store picks for a new document are parameters.
 */
module UserCollection {
  import opened Wrappers
  import opened UserEntity

  /** The message the store throws with when asked to update a missing document. */
  const NoDocumentToUpdate: string := "No document to update"

  /** The message `updateUser` throws with when the re-read after its write finds nothing. */
  const NotFoundAfterUpdate: string := "User not found after update"

  /** The records a read of the whole collection yields, one per key, in the order the keys are listed. */
  function Listing(keys: seq<string>, docs: map<string, UserDoc>): (users: seq<User>)
    requires forall k :: k in keys ==> k in docs
    ensures |users| == |keys|
    ensures forall i :: 0 <= i < |keys| ==> users[i] == WithId(keys[i], docs[keys[i]])
  {
    seq(|keys|, i requires 0 <= i < |keys| => WithId(keys[i], docs[keys[i]]))
  }

  /**
   * The stored fields after `update({ ...patch, updatedAt: now })`: each
   * supplied field replaces the stored one, `updatedAt` becomes `now`, and
   * nothing else changes.
   */
  function Patched(d: UserDoc, p: UserUpdate, now: Time): (r: UserDoc)
    ensures r.createdAt == d.createdAt && r.updatedAt == now
  {
    UserDoc(
      p.name.GetOr(d.name),
      p.email.GetOr(d.email),
      p.password.GetOr(d.password),
      d.createdAt,
      now,
      if p.profilePicture.Some? then p.profilePicture else d.profilePicture,
      if p.role.Some? then p.role else d.role,
      if p.isActive.Some? then p.isActive else d.isActive)
  }

  /** The stored fields of a new user created at `now`: both timestamps are that instant. */
  function Created(n: NewUser, now: Time): (d: UserDoc)
    ensures d.createdAt == d.updatedAt == now
    ensures d.name == n.name && d.email == n.email && d.password == n.password
    ensures d.profilePicture == n.profilePicture && d.role == n.role && d.isActive == n.isActive
  {
    UserDoc(n.name, n.email, n.password, now, now, n.profilePicture, n.role, n.isActive)
  }

  /** `keys` with every occurrence of `k` taken out, the others in order. */
  function Without(keys: seq<string>, k: string): (r: seq<string>)
    ensures forall x :: x in r <==> x in keys && x != k
    ensures |r| <= |keys|
  {
    if keys == [] then []
    else if keys[0] == k then Without(keys[1..], k)
    else [keys[0]] + Without(keys[1..], k)
  }

  /** No key is listed twice. */
  ghost predicate Distinct(keys: seq<string>) {
    forall i, j :: 0 <= i < j < |keys| ==> keys[i] != keys[j]
  }

  lemma {:induction false} WithoutDistinct(keys: seq<string>, k: string)
    requires Distinct(keys)
    ensures Distinct(Without(keys, k))
  {
    if keys != [] {
      WithoutDistinct(keys[1..], k);
      assert Distinct(keys[1..]) by {
        forall i, j | 0 <= i < j < |keys| - 1 ensures keys[1..][i] != keys[1..][j] {
          assert keys[1..][i] == keys[i + 1] && keys[1..][j] == keys[j + 1];
        }
      }
      if keys[0] != k {
        var rest := Without(keys[1..], k);
        assert keys[0] !in keys[1..];
        assert keys[0] !in rest;
        forall i, j | 0 <= i < j < |rest| + 1 ensures ([keys[0]] + rest)[i] != ([keys[0]] + rest)[j] {
          if i == 0 { assert ([keys[0]] + rest)[j] == rest[j - 1]; }
        }
      }
    }
  }

  class UserRepository {
    /** The stored documents, by key. */
    var docs: map<string, UserDoc>
    /** The order in which a read of the whole collection lists the documents. */
    var keys: seq<string>

    ghost predicate Valid()
      reads this
    {
      Distinct(keys) && (forall k :: k in docs <==> k in keys)
    }

    /** Every user record a read of the whole collection yields. */
    function Users(): (users: seq<User>)
      reads this
      requires Valid()
      ensures |users| == |keys|
    {
      Listing(keys, docs)
    }

    /** An empty collection. */
    constructor ()
      ensures Valid() && docs == map[] && keys == []
    {
      docs := map[];
      keys := [];
    }

    /** `getUserById`: the record stored under `id` with `id` as its id, or none. */
    method GetUserById(id: string) returns (r: Option<User>)
      requires Valid()
      ensures r.None? <==> id !in docs
      ensures r.Some? ==> r.value.id == id && r.value == WithId(id, docs[id])
    {
      if id in docs {
        r := Some(WithId(id, docs[id]));
      } else {
        r := None;
      }
    }

    /** `getAllUsers`: one record per stored document, each with its key as id, in listing order. */
    method GetAllUsers() returns (users: seq<User>)
      requires Valid()
      ensures users == Users()
      ensures forall k :: k in docs <==> exists i :: 0 <= i < |users| && users[i].id == k
      ensures forall i, j :: 0 <= i < j < |users| ==> users[i].id != users[j].id
    {
      users := [];
      var i := 0;
      while i < |keys|
        invariant 0 <= i <= |keys|
        invariant |users| == i
        invariant forall j :: 0 <= j < i ==> users[j] == WithId(keys[j], docs[keys[j]])
      {
        users := users + [WithId(keys[i], docs[keys[i]])];
        i := i + 1;
      }
      forall k | k in docs ensures exists i :: 0 <= i < |users| && users[i].id == k {
        var i :| 0 <= i < |keys| && keys[i] == k;
        assert users[i].id == k;
      }
    }

    /**
     * `updateUser`: writes the supplied fields and `updatedAt = now` into the
     * document under `id`, then returns the record read back. The store
     * throws when there is no such document; then nothing is written.
     */
    method UpdateUser(id: string, patch: UserUpdate, now: Time) returns (r: Result<User>)
      requires Valid()
      modifies this
      ensures Valid() && keys == old(keys)
      ensures id !in old(docs) ==> r == Err(NoDocumentToUpdate) && docs == old(docs)
      ensures id in old(docs) ==>
        && docs == old(docs)[id := Patched(old(docs)[id], patch, now)]
        && r == Ok(WithId(id, docs[id]))
    {
      if id !in docs {
        return Err(NoDocumentToUpdate);
      }
      docs := docs[id := Patched(docs[id], patch, now)];
      var reread := GetUserById(id);
      if reread.None? {
        return Err(NotFoundAfterUpdate);
      }
      r := Ok(reread.value);
    }

    /**
     * `createUser`: stores the new user's fields, both timestamps `now`,
     * under the fresh key `freshId`, and returns them with that key as id.
     */
    method CreateUser(data: NewUser, now: Time, freshId: string) returns (u: User)
      requires Valid()
      requires freshId !in docs
      modifies this
      ensures Valid()
      ensures docs == old(docs)[freshId := Created(data, now)]
      ensures keys == old(keys) + [freshId]
      ensures |docs| == |old(docs)| + 1
      ensures u == WithId(freshId, Created(data, now))
    {
      docs := docs[freshId := Created(data, now)];
      keys := keys + [freshId];
      u := WithId(freshId, Created(data, now));
    }

    /** `deleteUser`: removes the document under `id`, if any, and answers true. */
    method DeleteUser(id: string) returns (deleted: bool)
      requires Valid()
      modifies this
      ensures Valid()
      ensures docs == old(docs) - {id}
      ensures keys == Without(old(keys), id)
      ensures deleted
    {
      WithoutDistinct(keys, id);
      docs := docs - {id};
      keys := Without(keys, id);
      deleted := true;
    }
  }

  /** An update keeps every field the request leaves out. */
  lemma PatchedKeepsUnsupplied(d: UserDoc, p: UserUpdate, now: Time)
    ensures p.name.None? ==> Patched(d, p, now).name == d.name
    ensures p.email.None? ==> Patched(d, p, now).email == d.email
    ensures p.password.None? ==> Patched(d, p, now).password == d.password
    ensures p.profilePicture.None? ==> Patched(d, p, now).profilePicture == d.profilePicture
    ensures p.role.None? ==> Patched(d, p, now).role == d.role
    ensures p.isActive.None? ==> Patched(d, p, now).isActive == d.isActive
  {
  }

  /** Every supplied field takes the request's value. */
  lemma PatchedTakesSupplied(d: UserDoc, p: UserUpdate, now: Time)
    ensures p.name.Some? ==> Patched(d, p, now).name == p.name.value
    ensures p.email.Some? ==> Patched(d, p, now).email == p.email.value
    ensures p.password.Some? ==> Patched(d, p, now).password == p.password.value
    ensures p.profilePicture.Some? ==> Patched(d, p, now).profilePicture == p.profilePicture
    ensures p.role.Some? ==> Patched(d, p, now).role == p.role
    ensures p.isActive.Some? ==> Patched(d, p, now).isActive == p.isActive
  {
  }

  /** Applying the same update twice is applying it once, at the later instant. */
  lemma PatchedIdempotent(d: UserDoc, p: UserUpdate, t1: Time, t2: Time)
    ensures Patched(Patched(d, p, t1), p, t2) == Patched(d, p, t2)
  {
  }
}
