/** The app's records (types/index.ts): user profiles and outage reports.
    Dates are milliseconds since the epoch; optional properties are `Option`s. */
module Domain {
  import opened Wrappers

  /** Errors the document store reports: a write to a missing document, a
      malformed query. */
  datatype StoreError = NotFound | InvalidArgument

  /** Which services a user wants alerts for. */
  datatype Preferences = Preferences(electricity: bool, water: bool, internet: bool, allUpdates: bool)

  /** The opt-ins every new profile starts with: all three services, not `allUpdates`. */
  const DefaultPreferences := Preferences(true, true, true, false)

  datatype User = User(
    id: string,
    email: string,
    displayName: Option<string>,
    city: Option<string>,
    neighborhoods: Option<seq<string>>,
    notificationPreferences: Option<Preferences>,
    fcmToken: Option<string>,
    createdAt: int,
    updatedAt: int)

  /** A `Partial<User>` as the app writes it: the properties a caller supplies. */
  datatype UserPatch = UserPatch(
    email: Option<string>,
    displayName: Option<string>,
    city: Option<string>,
    neighborhoods: Option<seq<string>>,
    notificationPreferences: Option<Preferences>,
    fcmToken: Option<string>)

  const EmptyUserPatch := UserPatch(None, None, None, None, None, None)

  /** `{ ...u, ...p }`: a supplied property replaces the stored one. */
  function MergeUser(u: User, p: UserPatch): (r: User)
    ensures r.id == u.id && r.createdAt == u.createdAt && r.updatedAt == u.updatedAt
    ensures r.email == p.email.GetOr(u.email)
    ensures r.displayName == (if p.displayName.Some? then p.displayName else u.displayName)
    ensures r.city == (if p.city.Some? then p.city else u.city)
    ensures r.neighborhoods == (if p.neighborhoods.Some? then p.neighborhoods else u.neighborhoods)
    ensures r.notificationPreferences == (if p.notificationPreferences.Some? then p.notificationPreferences else u.notificationPreferences)
    ensures r.fcmToken == (if p.fcmToken.Some? then p.fcmToken else u.fcmToken)
  {
    u.(email := p.email.GetOr(u.email),
       displayName := Or(p.displayName, u.displayName),
       city := Or(p.city, u.city),
       neighborhoods := Or(p.neighborhoods, u.neighborhoods),
       notificationPreferences := Or(p.notificationPreferences, u.notificationPreferences),
       fcmToken := Or(p.fcmToken, u.fcmToken))
  }

  /** The supplied value if there is one, else the current one. */
  function Or<T>(supplied: Option<T>, current: Option<T>): Option<T> {
    if supplied.Some? then supplied else current
  }

  /** A patch applied after another: the later one wins where both supply a value. */
  function ThenPatch(p: UserPatch, q: UserPatch): UserPatch {
    UserPatch(Or(q.email, p.email), Or(q.displayName, p.displayName), Or(q.city, p.city),
              Or(q.neighborhoods, p.neighborhoods),
              Or(q.notificationPreferences, p.notificationPreferences), Or(q.fcmToken, p.fcmToken))
  }

  /** Merging two patches one after the other is merging their combination;
      an empty patch changes nothing; merging the same patch twice is merging it once. */
  lemma MergeLaws(u: User, p: UserPatch, q: UserPatch)
    ensures MergeUser(MergeUser(u, p), q) == MergeUser(u, ThenPatch(p, q))
    ensures MergeUser(u, EmptyUserPatch) == u
    ensures MergeUser(MergeUser(u, p), p) == MergeUser(u, p)
  {
  }

  datatype OutageReport = OutageReport(
    id: string,
    userId: string,
    userName: string,
    userEmail: string,
    city: string,
    neighborhood: string,
    serviceType: string,
    status: string,
    description: Option<string>,
    imageUrl: Option<string>,
    timestamp: int,
    createdAt: int,
    updatedAt: int)

  /** `Omit<OutageReport, 'id' | 'createdAt' | 'updatedAt'>`: what a caller hands to the store. */
  datatype ReportDraft = ReportDraft(
    userId: string,
    userName: string,
    userEmail: string,
    city: string,
    neighborhood: string,
    serviceType: string,
    status: string,
    description: Option<string>,
    imageUrl: Option<string>,
    timestamp: int)

  /** A `Partial<OutageReport>` restricted to the data fields. */
  datatype ReportPatch = ReportPatch(
    userId: Option<string>,
    userName: Option<string>,
    userEmail: Option<string>,
    city: Option<string>,
    neighborhood: Option<string>,
    serviceType: Option<string>,
    status: Option<string>,
    description: Option<string>,
    imageUrl: Option<string>,
    timestamp: Option<int>)
}
