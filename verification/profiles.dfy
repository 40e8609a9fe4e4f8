/** The user half of lib/firestore.ts: profile documents keyed by id,
    held as a sequence in document order. */
module Profiles {
  import opened Wrappers
  import opened Seqs
  import opened Domain

  type Profiles = seq<User>

  predicate HasUser(users: Profiles, id: string) {
    exists i :: 0 <= i < |users| && users[i].id == id
  }

  function WithId(id: string): User -> bool {
    (u: User) => u.id == id
  }

  /** `getUser`: the profile with that id, or nothing. */
  function GetUser(users: Profiles, id: string): (r: Option<User>)
    ensures r.Some? <==> HasUser(users, id)
    ensures r.Some? ==> r.value.id == id && r.value in users
  {
    Find(users, WithId(id))
  }

  /** Merges the patch into every profile with the given id and stamps it. */
  function MergeWhere(users: Profiles, id: string, patch: UserPatch, now: int, created: bool): (r: Profiles)
    ensures |r| == |users|
    ensures forall i :: 0 <= i < |users| ==> r[i].id == users[i].id
    ensures forall i :: 0 <= i < |users| && users[i].id != id ==> r[i] == users[i]
    ensures forall i :: 0 <= i < |users| && users[i].id == id ==>
      r[i] == MergeUser(users[i], patch).(updatedAt := now, createdAt := if created then now else users[i].createdAt)
    ensures created ==> forall i :: 0 <= i < |users| && users[i].id == id ==> r[i].createdAt == now
  {
    if |users| == 0 then []
    else
      var u := users[0];
      [if u.id == id then MergeUser(u, patch).(updatedAt := now, createdAt := if created then now else u.createdAt) else u]
        + MergeWhere(users[1..], id, patch, now, created)
  }

  /** `updateUser`: merges the supplied fields into an existing profile and
      stamps `updatedAt`; a missing profile makes the write fail. */
  function UpdateUser(users: Profiles, id: string, patch: UserPatch, now: int): (r: Result<Profiles, StoreError>)
    ensures r.Failure? <==> !HasUser(users, id)
    ensures r.Failure? ==> r.error == NotFound
    ensures r.Success? ==> |r.value| == |users|
    ensures r.Success? ==> forall i :: 0 <= i < |users| && users[i].id != id ==> r.value[i] == users[i]
    ensures r.Success? ==> forall i :: 0 <= i < |users| && users[i].id == id ==>
      r.value[i] == MergeUser(users[i], patch).(updatedAt := now)
  {
    if HasUser(users, id) then Success(MergeWhere(users, id, patch, now, false)) else Failure(NotFound)
  }

  /** `createUser` as written: the same partial update, also stamping
      `createdAt`, so it too fails when the profile does not exist yet. */
  function CreateUser(users: Profiles, id: string, patch: UserPatch, now: int): (r: Result<Profiles, StoreError>)
    ensures r.Failure? <==> !HasUser(users, id)
    ensures r.Failure? ==> r.error == NotFound
    ensures r.Success? ==> |r.value| == |users|
    ensures r.Success? ==> forall i :: 0 <= i < |users| && users[i].id == id ==>
      r.value[i] == MergeUser(users[i], patch).(updatedAt := now, createdAt := now)
  {
    if HasUser(users, id) then Success(MergeWhere(users, id, patch, now, true)) else Failure(NotFound)
  }

  /** `createUser` can never create: on a collection without the profile it fails. */
  lemma CreateUserCannotCreate(users: Profiles, id: string, patch: UserPatch, now: int)
    requires !HasUser(users, id)
    ensures CreateUser(users, id, patch, now) == Failure(NotFound)
  {
  }

  /** The profile a patch alone describes, with the given dates. */
  function FromPatch(id: string, patch: UserPatch, now: int): User {
    MergeUser(User(id, "", None, None, None, None, None, now, now), patch)
  }

  /** `createUser` as its name promises: an existing profile is updated as
      before, a missing one is written from the patch. */
  function CreateUserFixed(users: Profiles, id: string, patch: UserPatch, now: int): (r: Profiles)
    ensures HasUser(r, id)
    ensures GetUser(r, id).Some? && GetUser(r, id).value.createdAt == now
    ensures HasUser(users, id) ==> Success(r) == CreateUser(users, id, patch, now)
    ensures !HasUser(users, id) ==> r == users + [FromPatch(id, patch, now)]
  {
    if HasUser(users, id) then
      var r := MergeWhere(users, id, patch, now, true);
      var k :| 0 <= k < |users| && users[k].id == id;
      assert r[k].id == id;
      FirstWithIdStamped(users, id, patch, now);
      r
    else
      var r := users + [FromPatch(id, patch, now)];
      assert r[|users|].id == id;
      assert forall i :: 0 <= i < |users| ==> r[i].id != id;
      FindAppended(users, FromPatch(id, patch, now), WithId(id));
      r
  }

  lemma FirstWithIdStamped(users: Profiles, id: string, patch: UserPatch, now: int)
    requires HasUser(users, id)
    ensures GetUser(MergeWhere(users, id, patch, now, true), id).Some?
    ensures GetUser(MergeWhere(users, id, patch, now, true), id).value.createdAt == now
  {
    var r := MergeWhere(users, id, patch, now, true);
    var k :| 0 <= k < |users| && users[k].id == id;
    assert r[k].id == id;
    FoundStamped(r, id, now);
  }

  lemma FoundStamped(r: Profiles, id: string, now: int)
    requires HasUser(r, id)
    requires forall i :: 0 <= i < |r| && r[i].id == id ==> r[i].createdAt == now
    ensures GetUser(r, id).Some? && GetUser(r, id).value.createdAt == now
  {
    var found := GetUser(r, id).value;
    var i :| 0 <= i < |r| && r[i] == found;
  }

  lemma FindAppended<T>(s: seq<T>, x: T, p: T -> bool)
    requires forall i :: 0 <= i < |s| ==> !p(s[i])
    requires p(x)
    ensures Find(s + [x], p) == Some(x)
  {
    var r := Find(s + [x], p);
    assert (s + [x])[|s|] == x;
    var i :| 0 <= i < |s + [x]| && (s + [x])[i] == r.value && forall j :: 0 <= j < i ==> !p((s + [x])[j]);
    if i < |s| {
      assert p((s + [x])[i]);
      assert (s + [x])[i] == s[i];
    }
  }
}
