/** The decisions of contexts/AuthContext.tsx, run against the profile
    documents of lib/firestore.ts: the profile bootstrap and token refresh
    in the auth-state handler, the profile `signUp` writes, and the
    `updateUserProfile` merge. Firebase Auth, the push-token registration
    and the store's failures are parameters. */
module AuthContext {
  import opened Wrappers
  import opened Seqs
  import opened Domain
  import opened Profiles

  /** What the handler reads off the signed-in account. */
  datatype Account = Account(uid: string, email: string, displayName: Option<string>)

  datatype State = State(user: Option<User>, firebaseUser: Option<Account>, isLoading: bool)

  /** `useState` defaults: nobody signed in, still loading. */
  const InitialState: State := State(None, None, true)

  const NotSignedIn: string := "Utilisateur non connecté"

  /** `setDoc`: the document with that id is replaced, or added when absent. */
  function SetDoc(users: Profiles, u: User): (r: Profiles)
    ensures GetUser(r, u.id) == Some(u)
    ensures forall i :: 0 <= i < |users| && users[i].id != u.id ==> users[i] in r
    ensures HasUser(users, u.id) ==> |r| == |users|
    ensures !HasUser(users, u.id) ==> r == users + [u]
  {
    var r := if HasUser(users, u.id) then
        seq(|users|, i requires 0 <= i < |users| => if users[i].id == u.id then u else users[i])
      else users + [u];
    assert forall i :: 0 <= i < |r| && r[i].id == u.id ==> r[i] == u;
    assert forall i :: 0 <= i < |users| && users[i].id != u.id ==> r[i] == users[i];
    assert HasUser(r, u.id) by {
      if HasUser(users, u.id) {
        var k :| 0 <= k < |users| && users[k].id == u.id;
        assert r[k] == u;
      } else {
        assert r[|users|] == u;
      }
    }
    r
  }

  /** The profile the handler creates when none exists: the account's id
      and e-mail, its display name when non-empty, default preferences,
      no city, neighbourhoods or token. */
  function NewProfile(account: Account, now: int): (r: User)
    ensures r.id == account.uid && r.email == account.email
    ensures r.displayName.Some? <==> account.displayName.Some? && account.displayName.value != ""
    ensures r.displayName.Some? ==> r.displayName == account.displayName
    ensures r.notificationPreferences == Some(DefaultPreferences)
    ensures r.city.None? && r.neighborhoods.None? && r.fcmToken.None?
    ensures r.createdAt == now && r.updatedAt == now
  {
    var name := if account.displayName.Some? && account.displayName.value != "" then account.displayName else None;
    User(account.uid, account.email, name, None, None, Some(DefaultPreferences), None, now, now)
  }

  /** `token && token !== userData.fcmToken`. */
  predicate TokenChanged(token: Option<string>, stored: Option<string>) {
    token.Some? && token.value != "" && stored != token
  }

  /** What the handler sees from the store: a profile to show and the
      documents afterwards, or nothing when the read or the creating write
      threw (the error is logged and the shown user stays as it was). */
  function Bootstrap(store: Profiles, account: Account, readFails: bool, writeFails: bool, now: int): (r: Option<(User, Profiles)>)
    ensures r.None? <==> readFails || (!HasUser(store, account.uid) && writeFails)
    ensures r.Some? ==> GetUser(r.value.1, account.uid) == Some(r.value.0)
    ensures r.Some? && HasUser(store, account.uid) ==> Some(r.value.0) == GetUser(store, account.uid) && r.value.1 == store
    ensures r.Some? && !HasUser(store, account.uid) ==>
      r.value.0 == NewProfile(account, now) && r.value.1 == store + [NewProfile(account, now)]
  {
    if readFails then None
    else match GetUser(store, account.uid)
      case Some(u) => Some((u, store))
      case None =>
        if writeFails then None
        else
          var u := NewProfile(account, now);
          Some((u, SetDoc(store, u)))
  }

  /** One call of the `onAuthStateChanged` handler. `token` is what the
      push registration returned. The token write swallows its own error
      (`updateUserNotificationToken`), and the handler then shows the new
      token all the same; `tokenWriteFails` says whether that write threw. */
  function OnAuthStateChanged(s: State, store: Profiles, account: Option<Account>, readFails: bool, writeFails: bool,
                              token: Option<string>, tokenWriteFails: bool, now: int): (r: (State, Profiles))
    ensures r.0.isLoading == false && r.0.firebaseUser == account
    ensures account.None? ==> r.0.user.None? && r.1 == store
    ensures account.Some? && Bootstrap(store, account.value, readFails, writeFails, now).None? ==>
      r.0.user == s.user && r.1 == store
    ensures account.Some? && Bootstrap(store, account.value, readFails, writeFails, now).Some? ==>
      var (shown, written) := Bootstrap(store, account.value, readFails, writeFails, now).value;
      && r.0.user == Some(if TokenChanged(token, shown.fcmToken) then shown.(fcmToken := token) else shown)
      && (tokenWriteFails || !TokenChanged(token, shown.fcmToken) ==> r.1 == written)
      && (!tokenWriteFails && TokenChanged(token, shown.fcmToken) ==>
            Success(r.1) == UpdateUser(written, account.value.uid, EmptyUserPatch.(fcmToken := token), now))
  {
    match account
    case None => (State(None, None, false), store)
    case Some(a) =>
      match Bootstrap(store, a, readFails, writeFails, now)
      case None => (State(s.user, account, false), store)
      case Some((shown, written)) =>
        if TokenChanged(token, shown.fcmToken) then
          var stored := if tokenWriteFails then written
            else match UpdateUser(written, a.uid, EmptyUserPatch.(fcmToken := token), now)
              case Success(w) => w
              case Failure(_) => written;
          (State(Some(shown.(fcmToken := token)), account, false), stored)
        else (State(Some(shown), account, false), written)
  }

  /** An existing profile is shown as loaded and never rewritten: the only
      possible write is the token, which leaves every other field alone. */
  lemma ExistingProfileNotRewritten(s: State, store: Profiles, a: Account, writeFails: bool, token: Option<string>,
                                    tokenWriteFails: bool, now: int)
    requires HasUser(store, a.uid)
    ensures var (after, stored) := OnAuthStateChanged(s, store, Some(a), false, writeFails, token, tokenWriteFails, now);
      && after.user.Some?
      && after.user.value.(fcmToken := GetUser(store, a.uid).value.fcmToken) == GetUser(store, a.uid).value
      && |stored| == |store|
      && (!TokenChanged(token, GetUser(store, a.uid).value.fcmToken) ==> stored == store)
  {
  }

  /** When the token write goes through, the token reaches the store
      exactly when it changed, whether the profile was loaded or just
      created; nothing but the token and the update stamp is rewritten. */
  lemma TokenWrittenOnlyWhenChanged(s: State, store: Profiles, a: Account, token: Option<string>, now: int)
    ensures var (shown, written) := Bootstrap(store, a, false, false, now).value;
      var stored := OnAuthStateChanged(s, store, Some(a), false, false, token, false, now).1;
      && (TokenChanged(token, shown.fcmToken) ==> GetUser(stored, a.uid) == Some(shown.(fcmToken := token, updatedAt := now)))
      && (!TokenChanged(token, shown.fcmToken) ==> stored == written)
  {
    var (shown, written) := Bootstrap(store, a, false, false, now).value;
    if TokenChanged(token, shown.fcmToken) {
      GetUserAfterUpdate(written, a.uid, EmptyUserPatch.(fcmToken := token), now);
    }
  }

  /** When the swallowed token write throws, the handler still shows the
      new token while the store keeps the old one: the two copies part. */
  lemma FailedTokenWriteDiverges(s: State, store: Profiles, a: Account, token: Option<string>, now: int)
    requires HasUser(store, a.uid)
    requires TokenChanged(token, GetUser(store, a.uid).value.fcmToken)
    ensures var (after, stored) := OnAuthStateChanged(s, store, Some(a), false, false, token, true, now);
      && stored == store
      && after.user.value.fcmToken == token
      && GetUser(stored, a.uid).value.fcmToken != after.user.value.fcmToken
  {
  }

  /** Reading the profile back after an update gives the merged profile. */
  lemma {:induction false} GetUserAfterUpdate(users: Profiles, id: string, patch: UserPatch, now: int)
    requires HasUser(users, id)
    ensures GetUser(MergeWhere(users, id, patch, now, false), id) == Some(MergeUser(GetUser(users, id).value, patch).(updatedAt := now))
    decreases |users|
  {
    var merged := MergeWhere(users, id, patch, now, false);
    assert merged[0].id == users[0].id;
    if users[0].id != id {
      assert HasUser(users[1..], id) by {
        var k :| 0 <= k < |users| && users[k].id == id;
        assert users[1..][k - 1] == users[k];
      }
      GetUserAfterUpdate(users[1..], id, patch, now);
      assert merged[1..] == MergeWhere(users[1..], id, patch, now, false);
      assert GetUser(users, id) == GetUser(users[1..], id);
      assert GetUser(merged, id) == GetUser(merged[1..], id);
    }
  }

  /** A first sign-in without a profile creates exactly the default one,
      appended after the existing profiles; a push token is then shown, and
      stored too unless its write threw. */
  lemma MissingProfileCreated(s: State, store: Profiles, a: Account, token: Option<string>, tokenWriteFails: bool, now: int)
    requires !HasUser(store, a.uid)
    ensures var (after, stored) := OnAuthStateChanged(s, store, Some(a), false, false, token, tokenWriteFails, now);
      var initial := NewProfile(a, now);
      var withToken := TokenChanged(token, None);
      && after.user == Some(if withToken then initial.(fcmToken := token) else initial)
      && |stored| == |store| + 1 && stored[..|store|] == store
      && GetUser(stored, a.uid) == Some(if withToken && !tokenWriteFails then initial.(fcmToken := token) else initial)
  {
    var initial := NewProfile(a, now);
    if TokenChanged(token, None) && !tokenWriteFails {
      UpdateAppended(store, initial, EmptyUserPatch.(fcmToken := token), now);
      ReadAppended(store, initial.(fcmToken := token));
    } else {
      ReadAppended(store, initial);
    }
  }

  /** Updating a profile just appended after others changes only that one. */
  lemma UpdateAppended(store: Profiles, u: User, patch: UserPatch, now: int)
    requires !HasUser(store, u.id)
    ensures UpdateUser(store + [u], u.id, patch, now) == Success(store + [MergeUser(u, patch).(updatedAt := now)])
  {
    var written := store + [u];
    assert written[|store|].id == u.id;
    var r := UpdateUser(written, u.id, patch, now).value;
    assert forall i :: 0 <= i < |store| ==> written[i] == store[i] && written[i].id != u.id;
    assert r == store + [MergeUser(u, patch).(updatedAt := now)];
  }

  /** A profile appended after others with different ids is the one read back. */
  lemma ReadAppended(store: Profiles, u: User)
    requires !HasUser(store, u.id)
    ensures GetUser(store + [u], u.id) == Some(u)
    ensures (store + [u])[..|store|] == store
  {
    FindAppended(store, u, WithId(u.id));
  }

  /** The profile `signUp` writes: the given name and city, default
      preferences, no neighbourhoods or token. */
  function SignUpProfile(account: Account, displayName: string, city: string, now: int): (r: User)
    ensures r.id == account.uid && r.email == account.email
    ensures r.displayName == Some(displayName) && r.city == Some(city)
    ensures r.notificationPreferences == Some(DefaultPreferences)
    ensures r.neighborhoods.None? && r.fcmToken.None?
  {
    User(account.uid, account.email, Some(displayName), Some(city), None, Some(DefaultPreferences), None, now, now)
  }

  /** `signUp` after the account exists: the profile write succeeds or throws. */
  function SignUp(store: Profiles, account: Option<Account>, displayName: string, city: string, writeFails: bool, now: int): (r: Result<Profiles, string>)
    ensures r.Success? <==> account.Some? && !writeFails
    ensures r.Success? ==> GetUser(r.value, account.value.uid) == Some(SignUpProfile(account.value, displayName, city, now))
  {
    if account.None? || writeFails then Failure("signUp")
    else Success(SetDoc(store, SignUpProfile(account.value, displayName, city, now)))
  }

  /** Once `signUp` has written the profile, the handler finds it and does
      not create another; sign-up and bootstrap agree on the defaults. */
  lemma SignUpThenSignIn(store: Profiles, a: Account, name: string, city: string, now: int, later: int)
    ensures var written := SignUp(store, Some(a), name, city, false, now).value;
      var (after, stored) := OnAuthStateChanged(InitialState, written, Some(a), false, false, None, false, later);
      after.user == Some(SignUpProfile(a, name, city, now)) && stored == written
    ensures SignUpProfile(a, name, city, now).notificationPreferences == NewProfile(a, later).notificationPreferences
  {
    var written := SignUp(store, Some(a), name, city, false, now).value;
    assert HasUser(written, a.uid);
  }

  /** `updateUserProfile`: refused when nobody is signed in; otherwise the
      store merges the fields and the shown profile merges them too. A write
      that throws for a reason other than a missing document
      (`writeFails`) is rethrown, and nothing changes. */
  function UpdateUserProfile(s: State, store: Profiles, data: UserPatch, writeFails: bool, now: int): (r: Result<(State, Profiles), string>)
    ensures s.firebaseUser.None? ==> r == Failure(NotSignedIn)
    ensures s.firebaseUser.Some? ==> (r.Success? <==> !writeFails && HasUser(store, s.firebaseUser.value.uid))
    ensures r.Success? ==> r.value.0.firebaseUser == s.firebaseUser && r.value.0.isLoading == s.isLoading
    ensures r.Success? ==> r.value.0.user == (if s.user.Some? then Some(MergeUser(s.user.value, data)) else None)
    ensures r.Success? ==> Success(r.value.1) == UpdateUser(store, s.firebaseUser.value.uid, data, now)
  {
    if s.firebaseUser.None? then Failure(NotSignedIn)
    else if writeFails then Failure("updateUser")
    else match UpdateUser(store, s.firebaseUser.value.uid, data, now)
      case Failure(_) => Failure("updateUser")
      case Success(stored) =>
        Success((s.(user := if s.user.Some? then Some(MergeUser(s.user.value, data)) else None), stored))
  }

  /** When the shown profile was the stored one, it still is after an
      update, up to the store's own `updatedAt` stamp. */
  lemma UpdateKeepsCopiesInStep(s: State, store: Profiles, data: UserPatch, now: int)
    requires s.firebaseUser.Some? && s.user.Some?
    requires GetUser(store, s.firebaseUser.value.uid) == s.user
    ensures UpdateUserProfile(s, store, data, false, now).Success?
    ensures var (after, stored) := UpdateUserProfile(s, store, data, false, now).value;
      GetUser(stored, s.firebaseUser.value.uid) == Some(after.user.value.(updatedAt := now))
  {
    GetUserAfterUpdate(store, s.firebaseUser.value.uid, data, now);
  }
}
