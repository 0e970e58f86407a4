/**
 * The home page's profile editor: the form seeded from the loaded user, and
 * the guards and payload of the update submit.
 */
module HomePage {
  import opened Wrappers
  import opened ClientTypes
  import opened AuthSlice

  const FillOneField: string := "Please fill at least one field to update"
  const UserMissing: string := "User information is missing. Please fetch user data first."

  /** The editor's three text fields. */
  datatype UpdateForm = UpdateForm(name: string, email: string, password: string)

  /** What a submit does: reject with a message, or send `data` for `userId`. */
  datatype UpdatePlan = Reject(message: string) | Dispatch(userId: string, data: map<string, string>)

  /** `handleEditClick`: the user's name and email (or "" when missing) and an empty password. */
  function EditFormOf(u: ClientUser): (f: UpdateForm)
    ensures f.password == ""
    ensures u.name.Some? ==> f.name == u.name.value
    ensures u.name.None? ==> f.name == ""
    ensures u.email.Some? ==> f.email == u.email.value
    ensures u.email.None? ==> f.email == ""
  {
    UpdateForm(u.name.GetOr(""), u.email.GetOr(""), "")
  }

  /** `Object.entries` of the form, in declaration order. */
  function Entries(f: UpdateForm): (es: seq<(string, string)>)
    ensures |es| == 3 && KeysDistinct(es)
    ensures ("name", f.name) in es && ("email", f.email) in es && ("password", f.password) in es
  {
    [("name", f.name), ("email", f.email), ("password", f.password)]
  }

  /** No key occurs twice. */
  ghost predicate KeysDistinct(es: seq<(string, string)>) {
    forall i, j :: 0 <= i < j < |es| ==> es[i].0 != es[j].0
  }

  /** `filter(([, value]) => value !== "")`: the entries with a non-empty value, in order. */
  function KeepFilled(es: seq<(string, string)>): (r: seq<(string, string)>)
    ensures forall e :: e in r <==> e in es && e.1 != ""
    ensures KeysDistinct(es) ==> KeysDistinct(r)
  {
    if es == [] then []
    else
      var rest := KeepFilled(es[1..]);
      assert forall e :: e in rest ==> e in es[1..];
      if es[0].1 != "" then [es[0]] + rest else rest
  }

  /** `reduce((acc, [key, value]) => ({ ...acc, [key]: value }), {})`: later entries win. */
  function Collect(es: seq<(string, string)>): (m: map<string, string>)
    ensures forall k :: k in m <==> exists e :: e in es && e.0 == k
    ensures KeysDistinct(es) ==> forall e :: e in es ==> m[e.0] == e.1
  {
    if es == [] then map[]
    else
      var last := es[|es| - 1];
      var init := es[..|es| - 1];
      var m := Collect(init);
      assert forall e :: e in es <==> e in init || e == last;
      assert KeysDistinct(es) ==> forall e :: e in init ==> e.0 != last.0;
      m[last.0 := last.1]
  }

  /**
   * `dataToUpdate`: exactly the filled fields, each with the value typed,
   * and nothing else.
   */
  function UpdatePayload(f: UpdateForm): (m: map<string, string>)
    ensures m.Keys <= {"name", "email", "password"}
    ensures ("name" in m <==> f.name != "") && ("name" in m ==> m["name"] == f.name)
    ensures ("email" in m <==> f.email != "") && ("email" in m ==> m["email"] == f.email)
    ensures ("password" in m <==> f.password != "") && ("password" in m ==> m["password"] == f.password)
  {
    var es := Entries(f);
    assert KeysDistinct(es);
    var kept := KeepFilled(es);
    assert ("name", f.name) in es && ("email", f.email) in es && ("password", f.password) in es;
    assert forall e :: e in kept ==> e in es;
    Collect(kept)
  }

  /**
   * `handleUpdateUser`'s decision: an all-empty form is rejected first, a
   * missing user or id second; otherwise the filled fields go out for the
   * loaded user's id, so a dispatched payload is never empty.
   */
  function PlanUpdate(f: UpdateForm, user: Option<ClientUser>): (p: UpdatePlan)
    ensures p == Reject(FillOneField) <==> f.name == "" && f.email == "" && f.password == ""
    ensures p == Reject(UserMissing) <==> (f.name != "" || f.email != "" || f.password != "") && (user.None? || user.value.id == "")
    ensures p.Dispatch? <==> (f.name != "" || f.email != "" || f.password != "") && user.Some? && user.value.id != ""
    ensures p.Dispatch? ==> p.userId == user.value.id && p.data == UpdatePayload(f) && |p.data| >= 1
  {
    if f.name == "" && f.email == "" && f.password == "" then Reject(FillOneField)
    else if user.None? || user.value.id == "" then Reject(UserMissing)
    else
      var m := UpdatePayload(f);
      assert "name" in m || "email" in m || "password" in m;
      Dispatch(user.value.id, m)
  }

  /**
   * The submit applied to the store: a rejection is recorded as the update
   * error through `updateUserProfile.rejected`; a dispatch starts the update
   * through `updateUserProfile.pending` and then blanks the password while
   * keeping name and email.
   */
  method HandleUpdateUser(store: AuthStore, f: UpdateForm) returns (plan: UpdatePlan, next: UpdateForm)
    modifies store
    ensures plan == PlanUpdate(f, old(store.user))
    ensures plan.Reject? ==> next == f && store.State() == old(store.State()).(updateLoading := false, updateError := Some(plan.message))
    ensures plan.Dispatch? ==>
      && next == f.(password := "")
      && store.State() == old(store.State()).(updateLoading := true, updateError := None, updateSuccess := None)
  {
    plan := PlanUpdate(f, store.user);
    match plan {
      case Reject(message) =>
        store.UpdateProfileRejected(Some(message));
        next := f;
      case Dispatch(_, _) =>
        store.UpdateProfilePending();
        next := f.(password := "");
    }
  }
}
