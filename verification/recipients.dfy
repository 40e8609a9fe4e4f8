/** Recipient resolution for a new report (`getSubscribedUsersForReport`,
    lib/firestore.ts): a store query on city and the service preference,
    then an in-process filter on the push token and the neighbourhood. */
module Recipients {
  import opened Wrappers
  import opened Seqs
  import opened Domain

  /** The fields of a report that resolution and dispatch read. The id is
      optional: a caller may hand over a report the store has not named yet. */
  datatype Incident = Incident(id: Option<string>, city: string, neighborhood: string, serviceType: string)

  function IncidentOf(r: OutageReport): (i: Incident)
    ensures i.id == Some(r.id) && i.city == r.city
    ensures i.neighborhood == r.neighborhood && i.serviceType == r.serviceType
  {
    Incident(Some(r.id), r.city, r.neighborhood, r.serviceType)
  }

  /** `notificationPreferences.<key> == true`: a missing map or a key that
      names no flag never equals `true`. */
  function PreferenceFor(prefs: Option<Preferences>, key: string): (b: bool)
    ensures prefs.None? ==> !b
    ensures prefs.Some? && key == "electricity" ==> b == prefs.value.electricity
    ensures prefs.Some? && key == "water" ==> b == prefs.value.water
    ensures prefs.Some? && key == "internet" ==> b == prefs.value.internet
    ensures prefs.Some? && key == "allUpdates" ==> b == prefs.value.allUpdates
    ensures key !in {"electricity", "water", "internet", "allUpdates"} ==> !b
  {
    match prefs
    case None => false
    case Some(p) =>
      if key == "electricity" then p.electricity
      else if key == "water" then p.water
      else if key == "internet" then p.internet
      else if key == "allUpdates" then p.allUpdates
      else false
  }

  /** `!!user.fcmToken`: present and not the empty string. */
  predicate HasToken(u: User) {
    u.fcmToken.Some? && u.fcmToken.value != ""
  }

  /** `user.neighborhoods?.includes(n)`: an absent list includes nothing. */
  predicate FollowsNeighborhood(u: User, n: string) {
    u.neighborhoods.Some? && n in u.neighborhoods.value
  }

  /** The two `where` clauses the store evaluates. */
  function QueryMatch(inc: Incident): User -> bool {
    (u: User) => u.city == Some(inc.city) && PreferenceFor(u.notificationPreferences, inc.serviceType)
  }

  /** The filter run on the query's result. */
  function LocalMatch(inc: Incident): User -> bool {
    (u: User) => HasToken(u) && FollowsNeighborhood(u, inc.neighborhood)
  }

  /** A user is a recipient when all four conditions hold. */
  predicate Eligible(u: User, inc: Incident) {
    && u.city == Some(inc.city)
    && PreferenceFor(u.notificationPreferences, inc.serviceType)
    && HasToken(u)
    && FollowsNeighborhood(u, inc.neighborhood)
  }

  function EligibleFor(inc: Incident): User -> bool {
    (u: User) => Eligible(u, inc)
  }

  /** `getSubscribedUsersForReport` over the profile collection `users`. */
  function GetSubscribedUsersForReport(users: seq<User>, inc: Incident): (r: seq<User>)
    ensures forall i :: 0 <= i < |r| ==> r[i] in users
    ensures forall i :: 0 <= i < |r| ==> r[i].city == Some(inc.city)
    ensures forall i :: 0 <= i < |r| ==> PreferenceFor(r[i].notificationPreferences, inc.serviceType)
    ensures forall i :: 0 <= i < |r| ==> HasToken(r[i])
    ensures forall i :: 0 <= i < |r| ==> r[i].neighborhoods.Some? && inc.neighborhood in r[i].neighborhoods.value
    ensures forall i :: 0 <= i < |users| && Eligible(users[i], inc) ==> users[i] in r
  {
    var candidates := Filter(users, QueryMatch(inc));
    Filter(candidates, LocalMatch(inc))
  }

  /** Splitting the filter into a store query and a local pass loses and
      adds nothing: the result is the eligible users in collection order. */
  lemma {:induction false} TwoPhaseIsOneFilter(users: seq<User>, inc: Incident)
    ensures GetSubscribedUsersForReport(users, inc) == Filter(users, EligibleFor(inc))
  {
    FilterFilter(users, QueryMatch(inc), LocalMatch(inc), EligibleFor(inc));
  }

  /** The recipients keep the order of the query's result and of the collection. */
  lemma {:induction false} RecipientsKeepOrder(users: seq<User>, inc: Incident)
    ensures Subsequence(GetSubscribedUsersForReport(users, inc), Filter(users, QueryMatch(inc)))
    ensures Subsequence(GetSubscribedUsersForReport(users, inc), users)
  {
    FilterIsSubsequence(Filter(users, QueryMatch(inc)), LocalMatch(inc));
    TwoPhaseIsOneFilter(users, inc);
    FilterIsSubsequence(users, EligibleFor(inc));
  }

  /** Resolution reads only the city, the neighbourhood and the service type. */
  lemma ResolutionIgnoresId(users: seq<User>, inc: Incident, other: Incident)
    requires inc.city == other.city && inc.neighborhood == other.neighborhood && inc.serviceType == other.serviceType
    ensures GetSubscribedUsersForReport(users, inc) == GetSubscribedUsersForReport(users, other)
  {
    FilterPointwise(users, QueryMatch(inc), QueryMatch(other));
    var candidates := Filter(users, QueryMatch(inc));
    FilterPointwise(candidates, LocalMatch(inc), LocalMatch(other));
  }

  /** A profile without a usable token, or without a neighbourhood list, is never a recipient. */
  lemma Excluded(users: seq<User>, inc: Incident, u: User)
    requires !HasToken(u) || u.neighborhoods.None?
    ensures u !in GetSubscribedUsersForReport(users, inc)
  {
  }

  /** A water outage in Bacongo, Brazzaville, and five profiles: one that
      should hear of it, and one failing each condition in turn. */
  const BacongoWater := Incident(Some("r1"), "brazzaville", "Bacongo", "water")
  const WaterOnly := Some(Preferences(false, true, false, false))
  const Follower := User("a", "a@x", None, Some("brazzaville"), Some(["Bacongo"]), WaterOnly, Some("ExponentPushToken[a]"), 0, 0)
  const OtherQuarter := User("b", "b@x", None, Some("brazzaville"), Some(["Poto-Poto"]), WaterOnly, Some("ExponentPushToken[b]"), 0, 0)
  const OtherCity := User("c", "c@x", None, Some("pointe-noire"), Some(["Bacongo"]), WaterOnly, Some("ExponentPushToken[c]"), 0, 0)
  const NoWater := User("d", "d@x", None, Some("brazzaville"), Some(["Bacongo"]), Some(DefaultPreferences.(water := false)), Some("ExponentPushToken[d]"), 0, 0)
  const NoList := User("e", "e@x", None, Some("brazzaville"), None, WaterOnly, Some("ExponentPushToken[e]"), 0, 0)

  lemma ExampleEligibility()
    ensures Eligible(Follower, BacongoWater)
    ensures !Eligible(OtherQuarter, BacongoWater)
    ensures !Eligible(OtherCity, BacongoWater)
    ensures !Eligible(NoWater, BacongoWater)
    ensures !Eligible(NoList, BacongoWater)
  {
    assert ["Poto-Poto"][0] != "Bacongo";
    assert "pointe-noire"[0] != "brazzaville"[0];
  }

  /** None of the four others passes the eligibility test. */
  lemma OthersExcluded()
    ensures Filter([OtherQuarter, OtherCity, NoWater, NoList], EligibleFor(BacongoWater)) == []
  {
    ExampleEligibility();
    var p := EligibleFor(BacongoWater);
    FilterCons(NoList, [], p);
    assert [NoList] == [NoList] + [];
    FilterCons(NoWater, [NoList], p);
    FilterCons(OtherCity, [NoWater, NoList], p);
    FilterCons(OtherQuarter, [OtherCity, NoWater, NoList], p);
  }

  /** Of the five, only the Bacongo follower in Brazzaville who wants water
      alerts and has a token is a recipient. */
  lemma BacongoWaterExample()
    ensures GetSubscribedUsersForReport([Follower, OtherQuarter, OtherCity, NoWater, NoList], BacongoWater) == [Follower]
  {
    var users := [Follower, OtherQuarter, OtherCity, NoWater, NoList];
    TwoPhaseIsOneFilter(users, BacongoWater);
    ExampleEligibility();
    OthersExcluded();
    FilterCons(Follower, [OtherQuarter, OtherCity, NoWater, NoList], EligibleFor(BacongoWater));
    assert users == [Follower] + [OtherQuarter, OtherCity, NoWater, NoList];
  }
}
