# zela-alerte decision logic in Dafny

zela-alerte is a mobile app for reporting electricity, water and internet
outages in the cities of the Republic of the Congo. Residents file a report
for their neighbourhood. The app stores it in a Firestore collection and
sends a push alert to every resident who follows that neighbourhood and
has opted in to that service.

This project models the app's deterministic decisions as pure Dafny
functions and proves what the screens and helpers promise:

- **Recipient resolution** (`Recipients`). Who is alerted about a report:
  a store query on the city and the service preference, then a local
  filter on the push token and the neighbourhood list.
- **Report store and queries** (`Reports`). The collection is a sequence
  in document order:
  - `createReport` and `updateReport` defaults, and `deleteReport`;
  - the optional equality filters, newest-first order and limit of
    `getReports`;
  - `getUserReports`;
  - live feeds, as a re-run of the same query.
- **Profile documents** (`Profiles`, `Domain`). `getUser`, `updateUser`
  and `createUser`, plus the `{ ...user, ...patch }` merge.
- **Push fan-out** (`Notifications`):
  - `chunkArray`;
  - the `ExponentPushToken` filter;
  - message construction;
  - the batch loop inside a single `try`.

  The push gateway's answer to each call is an input function.
- **Report submission** (`ReportScreen`). What the report screen hands to
  the store and then to the fan-out.
- **Screens and contexts**:
  - the neighbourhood selector's toggle, check mark, options and subtitle
    (`NeighborhoodSelector`);
  - sign-up, sign-in and forgot-password validation and effects
    (`SignUp`, `SignIn`, `ForgotPassword`);
  - the auth context's profile bootstrap, token refresh, sign-up profile
    and profile update (`AuthContext`);
  - the outage card's "time ago" caption, icon and table lookups
    (`OutageCard`);
  - theme resolution (`Theme`);
  - the onboarding step machine (`Onboarding`).

Side effects are recorded as data, never performed:
- AsyncStorage writes, router moves and alerts become `Effect` values;
- Firebase Auth calls are oracles that succeed or fail;
- the device colour scheme and the clock reading are parameters;
- store failures are parameters for these calls:
  - the profile read and the creating `setDoc` in the auth-state handler;
  - the swallowed token write;
  - `signUp`'s profile write and `updateUserProfile`'s `updateUser`;
  - the report screen's `createReport`;
  - the fan-out's profile query, given as no collection at all.

  Other store calls fail only for reasons the model computes. `updateUser`,
  `updateReport` and `createUser` fail when their document is missing.
  `getReports` and the live feeds fail on a non-positive limit.

Helper modules:
- `Wrappers` (`Option`, `Result`);
- `Seqs` (`filter`, `find`, `flat`, subsequences);
- `Text` (`startsWith`, decimal rendering of a number);
- `Locations` (the constant tables of data/locations.ts).

## Model

| member | source | states |
|---|---|---|
| Recipients.GetSubscribedUsersForReport | lib/firestore.ts:184-205 | every returned profile is in the collection, has the report's city, has the service flag set to true, has a non-empty token, and lists the report's neighbourhood (an absent list excludes the user); every profile meeting all four conditions is returned |
| Recipients.PreferenceFor | lib/firestore.ts:191 | `notificationPreferences.<serviceType> == true` is false when the preferences are absent or the type names no flag, otherwise the matching flag |
| Recipients.TwoPhaseIsOneFilter | lib/firestore.ts:188-205 | the store query followed by the local filter returns exactly the eligible users in collection order |
| Recipients.RecipientsKeepOrder | lib/firestore.ts:194-205 | the recipients are an order-preserving subsequence of the query result and of the collection |
| Recipients.ResolutionIgnoresId | lib/firestore.ts:188-204 | two reports with the same city, neighbourhood and service type resolve to the same recipients, whatever their ids |
| Recipients.Excluded | lib/firestore.ts:202-205 | a profile with no usable token, or with no neighbourhood list, is never a recipient |
| Recipients.ExampleEligibility | lib/firestore.ts:202-204 | of five sample profiles, the Bacongo follower passes, and profiles in another neighbourhood, another city, without the water flag or without a list fail |
| Recipients.OthersExcluded | lib/firestore.ts:202-205 | filtering the four ineligible sample profiles leaves nothing |
| Recipients.BacongoWaterExample | lib/firestore.ts:184-205 | for a water outage in Bacongo, Brazzaville, only the matching follower of the five profiles is returned |
| Reports.NewReport | lib/firestore.ts:60-71 | the written document keeps the draft's fields, stores an absent description as the empty string, and stamps creation and update with the server time |
| Reports.CreateReport | lib/firestore.ts:60-71 | the document is appended under the store-chosen id, the id is returned, and ids stay unique |
| Reports.PatchReport | lib/firestore.ts:73-79 | each supplied field overwrites the stored one, every other field is kept, the id and creation date are kept, and `updatedAt` becomes the server time |
| Reports.UpdateReport | lib/firestore.ts:73-79 | an update of a missing document fails with not-found; otherwise only the documents with that id change, ids are kept and stay unique |
| Reports.DeleteReport | lib/firestore.ts:81-84 | afterwards no document has the id; every other document survives in order; with unique ids exactly one document goes when the id was present, none otherwise |
| Reports.DeleteCount | lib/firestore.ts:81-84 | with unique ids, deleting removes exactly one document when the id is present and none otherwise |
| Reports.InsertMultiset | lib/firestore.ts:94 | placing a report into an ordered feed adds exactly that report |
| Reports.InsertKeepsOrder | lib/firestore.ts:94 | placing a report into a newest-first sequence keeps it newest-first |
| Reports.SortIsPermutation | lib/firestore.ts:94 | `orderBy('timestamp', 'desc')` yields a newest-first permutation of its input |
| Reports.GetReports | lib/firestore.ts:86-121 | a non-positive limit is rejected; otherwise the result holds only stored reports equal to every given (non-empty) filter, is newest first, draws from the matching reports without duplication, and has exactly min(limit, matching) entries |
| Reports.GetReportsDefault | lib/firestore.ts:86-96 | without a limit, at most 50 matching reports are returned, newest first |
| Reports.LimitKeepsNewest | lib/firestore.ts:92-96 | a matching report cut off by the limit is no newer than any report returned |
| Reports.GetUserReports | lib/firestore.ts:164-182 | the result holds only the user's reports, newest first, every one of them (as many copies as stored), with no limit |
| Reports.Snapshot | lib/firestore.ts:123-162 | each snapshot of a live feed is the feed's query re-run: newest first, within the limit, and matching the filter |
| Reports.UnrelatedReportLeavesFeed | lib/firestore.ts:136-146 | adding a report that fails a feed's filter leaves that feed's snapshot unchanged |
| Reports.CreatedReportListed | lib/firestore.ts:164-169 | a newly created report appears among its author's reports |
| Domain.MergeUser | contexts/AuthContext.tsx:155 | `{ ...user, ...patch }`: every supplied property replaces the stored one and every other property is kept |
| Domain.MergeLaws | contexts/AuthContext.tsx:155 | two merges in a row equal one merge of the combined patch (later wins), the empty patch changes nothing, and merging a patch twice equals merging it once |
| Profiles.GetUser | lib/firestore.ts:42-57 | the profile with the id is returned exactly when one exists |
| Profiles.MergeWhere | lib/firestore.ts:34-40 | profiles with another id are unchanged and the one with the id receives the merge and the update stamp |
| Profiles.UpdateUser | lib/firestore.ts:34-40 | an update of a missing profile fails with not-found; otherwise only that profile is merged and stamped |
| Profiles.CreateUser | lib/firestore.ts:25-32 | as written, creation is a partial update: it fails exactly when the profile does not exist |
| Profiles.CreateUserCannotCreate | lib/firestore.ts:25-32 | on a collection without the profile, `createUser` always fails with not-found |
| Profiles.CreateUserFixed | lib/firestore.ts:25-32 | afterwards the profile exists and is stamped with the creation time; an existing profile is updated as before, and a missing one is appended |
| AuthContext.SetDoc | contexts/AuthContext.tsx:60-64 | `setDoc` replaces the document with the id or appends it, and leaves every other profile in place |
| AuthContext.NewProfile | contexts/AuthContext.tsx:44-58 | the created profile has the account's id and e-mail, a name only when the account's is non-empty, default preferences, and no city, neighbourhoods or token |
| AuthContext.Bootstrap | contexts/AuthContext.tsx:40-67 | a failed read, or a failed creating write, shows nothing new; an existing profile is used as loaded with the store untouched; a missing one is created as the default profile; on success the profile shown is the one the store now holds |
| AuthContext.OnAuthStateChanged | contexts/AuthContext.tsx:36-83 | loading ends after every change; signed out clears the user; a failure keeps the shown user; otherwise the loaded profile is shown, with the new token only when it changed, even when the swallowed token write threw; a failed or skipped token write leaves the store as loaded; a token write that goes through is `updateUser` of the token on the loaded store |
| AuthContext.ExistingProfileNotRewritten | contexts/AuthContext.tsx:42-73 | with an existing profile, the shown profile equals it except possibly the token, the store keeps its size, and without a token change the store is untouched |
| AuthContext.TokenWrittenOnlyWhenChanged | contexts/AuthContext.tsx:70-73 | for a loaded or newly created profile, when the token write goes through, the stored profile becomes the shown one with the new token and the update stamp exactly when the token is present, non-empty and different; otherwise the store is left as loaded |
| AuthContext.FailedTokenWriteDiverges | lib/notifications.ts:58-62 | when the token write throws, its error is swallowed and the handler still shows the new token, so the shown token and the stored token differ |
| AuthContext.GetUserAfterUpdate | lib/firestore.ts:34-57 | reading a profile back after `updateUser` gives the merged, stamped profile |
| AuthContext.MissingProfileCreated | contexts/AuthContext.tsx:44-67 | a first sign-in without a profile appends exactly the default profile after the others and shows it; a push token is shown with it, and stored with it unless the token write threw |
| AuthContext.SignUpProfile | contexts/AuthContext.tsx:108-119 | the sign-up profile carries the given name and city and the default preferences |
| AuthContext.SignUp | contexts/AuthContext.tsx:99-132 | sign-up succeeds exactly when the account exists and the write succeeds, and the profile is then readable |
| AuthContext.SignUpThenSignIn | contexts/AuthContext.tsx:99-125 | after sign-up, the auth handler shows the written profile without rewriting the store, and sign-up and bootstrap share the default preferences |
| AuthContext.UpdateUserProfile | contexts/AuthContext.tsx:150-159 | with nobody signed in it fails with "Utilisateur non connecté"; otherwise it succeeds exactly when the write does not throw and the profile exists, merging the fields into the store and into the shown profile |
| AuthContext.UpdateKeepsCopiesInStep | contexts/AuthContext.tsx:150-159 | when the shown profile was the stored one, after an update they still agree, up to the store's `updatedAt` |
| Notifications.ChunkArray | lib/notifications.ts:143-148 | concatenating the chunks gives back the input exactly, in order |
| Notifications.ChunkSizes | lib/notifications.ts:145-147 | every chunk holds 1 to `size` elements, and every chunk but the last holds exactly `size` |
| Notifications.ChunkCount | lib/notifications.ts:143-148 | the number of chunks is the ceiling of the length over `size` |
| Notifications.ChunkArrayLoop | lib/notifications.ts:143-148 | the `for` loop with step `size` computes the same chunks |
| Notifications.TwoHundredFiftyTokens | lib/notifications.ts:111 | 250 tokens go out in batches of 100, 100 and 50, in order |
| Notifications.PushTokens | lib/notifications.ts:103-105 | every kept token starts with `ExponentPushToken` and belongs to a user, and every such token of a user is kept |
| Notifications.PushTokensAreFilteredTokens | lib/notifications.ts:103-105 | the token list is exactly the tokens of the users carrying a valid one, in user order |
| Notifications.MessageBody | lib/notifications.ts:109 | the body is `Incident à <neighbourhood> (<service type>)` |
| Notifications.BuildMessages | lib/notifications.ts:114-120 | one message per token, in order, each addressed to its token, with the fixed title and sound, the shared body and the report id |
| Notifications.SendBatches | lib/notifications.ts:113-140 | batches are posted in order; a thrown error ends the loop and is logged, and any other reply lets the next batch go |
| Notifications.NotifyUsersOfNewReport | lib/notifications.ts:100-141 | a failed resolver query only logs; no valid token means no call; otherwise the batches are posted in order until one throws, an error is logged exactly when the last call threw, and without a throw every batch is posted; the caller never sees an error |
| Notifications.BatchesWithinLimit | lib/notifications.ts:111-120 | every gateway call carries between 1 and 100 messages |
| Notifications.PartialFailureContinues | lib/notifications.ts:134-136 | a non-ok status or a per-message error is only logged, and the next batch is still posted |
| Notifications.TargetsOfBatches | lib/notifications.ts:113-120 | the addressees of the posted batches are the batches' tokens in order |
| Notifications.DeliveredToEveryRecipient | lib/notifications.ts:103-130 | when nothing throws, every valid recipient token gets exactly one message, in resolver order |
| Notifications.HttpErrorOnFirstBatchContinues | lib/notifications.ts:132-137 | an HTTP error with a JSON body on the first of two batches still lets the second go, and nothing is logged as an error |
| Notifications.UnparsableReplyStopsDispatch | lib/notifications.ts:132-140 | a body that fails to parse on the first of two batches ends the dispatch in the catch-all, and the second batch is never posted |
| ReportScreen.DraftIncident | lib/firestore.ts:60 | a report draft, the input type of `createReport`, carries no id, so the incident built from it has none |
| ReportScreen.AsWrittenLosesReportId | lib/notifications.ts:119 | when the report screen hands the unsaved draft to the fan-out, no pushed message carries a report id |
| ReportScreen.SubmitFixed | lib/notifications.ts:119 | with the stored report handed to the fan-out, the store holds the new report as before and every pushed message carries the new report's id; a failed store write leaves the store alone and skips the fan-out |
| ReportScreen.FixKeepsRecipients | lib/firestore.ts:184-205 | handing over the stored report instead of the draft changes only the id: the same tokens are batched the same way |
| NeighborhoodSelector.Toggle | components/NeighborhoodSelector.tsx:63-77 | the empty value clears the list; a selected name is removed wherever it occurs, and every other name keeps its order and its number of occurrences; any other name is appended at the end |
| NeighborhoodSelector.OnToggle | components/NeighborhoodSelector.tsx:75-76 | the parent's callback, when given, receives exactly the list the component stores |
| NeighborhoodSelector.ToggleFlipsOnlyItsMark | components/NeighborhoodSelector.tsx:80 | toggling a name flips its check mark and no other |
| NeighborhoodSelector.ClearUnmarksAll | components/NeighborhoodSelector.tsx:64-67 | after the clear value no option is marked |
| NeighborhoodSelector.ToggleTwiceRestores | components/NeighborhoodSelector.tsx:70-73 | adding a name and toggling it again restores the original list |
| NeighborhoodSelector.ToggleKeepsDistinct | components/NeighborhoodSelector.tsx:70-73 | a list without duplicates keeps none after a toggle |
| NeighborhoodSelector.Options | components/NeighborhoodSelector.tsx:34-44 | an unknown city offers nothing; a known one offers its neighbourhoods in table order, labelled by name |
| NeighborhoodSelector.OptionsNeverClear | components/NeighborhoodSelector.tsx:39-44 | no offered option carries the clear value, so pressing an option always toggles a name |
| NeighborhoodSelector.NamesNonEmpty | data/locations.ts:1-59 | every neighbourhood name in the city table is non-empty |
| NeighborhoodSelector.Subtitle | components/NeighborhoodSelector.tsx:100-102 | a non-empty list shows its count followed by " sélectionné(s)"; an empty one shows the invitation |
| NeighborhoodSelector.CountedSubtitleIsNotEmpty | components/NeighborhoodSelector.tsx:100-102 | a counted subtitle is never the invitation |
| NeighborhoodSelector.SubtitleDeterminesCount | components/NeighborhoodSelector.tsx:100-102 | two lists share a subtitle only when they have the same length |
| Locations.FindCity | components/NeighborhoodSelector.tsx:34-37 | the city with the id is found exactly when the table holds one |
| Locations.FindLabel | components/OutageCard.tsx:33-34 | a service or status entry is found exactly when the table holds that id |
| OutageCard.TimeAgo | components/OutageCard.tsx:49-61 | under a minute, including the future, reads "À l'instant"; then whole minutes, then hours below a day, then days, each as floored milliseconds over the unit |
| OutageCard.DivDiv | components/OutageCard.tsx:56-59 | flooring twice by two positive divisors equals flooring once by their product |
| OutageCard.DaysFromMinutes | components/OutageCard.tsx:59 | days computed from minutes by two floors equal the minutes floored by 1440 |
| OutageCard.DayUnit | components/OutageCard.tsx:60 | "jour" takes an "s" exactly when there is more than one day |
| OutageCard.CaptionShape | components/OutageCard.tsx:53-60 | every caption but "just now" begins "il y a ", and it is "just now" exactly below one minute |
| OutageCard.FutureIsJustNow | components/OutageCard.tsx:51-53 | a timestamp in the future reads "À l'instant" |
| OutageCard.ServiceIcon | components/OutageCard.tsx:36-47 | water gets the droplets, internet the wifi icon, and electricity and every other type the bolt |
| OutageCard.IconFallback | components/OutageCard.tsx:33-46 | a type missing from the service table is drawn like electricity, and the three known types get three different icons |
| OutageCard.BadgeColor | components/OutageCard.tsx:78 | the badge background is the status colour followed by "20", or "undefined20" when the status is unknown |
| OutageCard.RenderCard | components/OutageCard.tsx:33-113 | names and colours appear exactly when the id is in its table and are that entry's; the badge is the status colour with "20" appended; the place reads "<neighbourhood>, <city>" and the byline "Par <name>"; the description shows only when non-empty; the caption is the "time ago" of the report |
| OutageCard.KnownReportFullyLabelled | components/OutageCard.tsx:33-34 | a report whose type and status come from the tables shows both names and a real badge colour |
| Theme.ColorScheme | contexts/ThemeContext.tsx:66-68 | dark and light choices ignore the device; automatic follows the device, or light when the device gives none |
| Theme.Colors | contexts/ThemeContext.tsx:70 | the palette is the dark one exactly for the dark scheme, and the light one exactly for the light scheme |
| Theme.PalettesDiffer | contexts/ThemeContext.tsx:28-58 | the two palettes differ |
| Theme.DarkExactly | contexts/ThemeContext.tsx:66-70 | the screen is dark exactly when dark was chosen, or automatic was chosen on a dark device |
| Theme.ExplicitChoiceIgnoresDevice | contexts/ThemeContext.tsx:64-68 | an explicit choice does not depend on the device, and the initial automatic choice follows it |
| Theme.SharedColors | contexts/ThemeContext.tsx:28-58 | the brand colour and the active tab colour are the same in both palettes |
| Onboarding.HandleNext | app/onboarding.tsx:42-49 | before the last slide it advances and writes nothing; on the last it stays, remembers the onboarding and goes to sign-in |
| Onboarding.HandleSkip | app/onboarding.tsx:51-54 | skipping from any slide remembers the onboarding and goes to sign-in |
| Onboarding.Mount | app/onboarding.tsx:59-67 | a stored "true" goes to sign-in, anything else (absent included) to the onboarding |
| Onboarding.ButtonTitle | app/onboarding.tsx:113 | the button reads "Commencer" exactly on the last slide, "Suivant" otherwise |
| Onboarding.RunStaysOnSlides | app/onboarding.tsx:38-56 | from a valid slide, no sequence of presses leaves the slide table |
| Onboarding.Apply | app/onboarding.tsx:46 | storing items never removes a key |
| Onboarding.FinishedIsRemembered | app/onboarding.tsx:59-67 | after finishing or skipping, the next launch goes straight to sign-in |
| Onboarding.WalkThrough | app/onboarding.tsx:42-49 | three presses of the main button walk the three slides and then finish, and the caption changes only on the last |
| SignUp.Validate | app/auth/signup.tsx:34-42 | each field has an error exactly when it fails its rule; the later mismatch and length messages overwrite the earlier "required" ones |
| SignUp.ValidateAcceptsExactly | app/auth/signup.tsx:44-47 | there are no errors exactly when every field is filled, the passwords agree and the password has at least six characters |
| SignUp.RequiredMessagesOverwritten | app/auth/signup.tsx:38-42 | "Mot de passe requis" never survives, and an empty confirmation under a non-empty password shows the mismatch |
| SignUp.HandleSignUp | app/auth/signup.tsx:31-55 | errors are cleared first; account creation is called exactly for an acceptable form; then success moves to the tabs and failure shows the single general error |
| SignUp.ShownAfterPress | app/auth/signup.tsx:31-55 | whatever was shown before, a press leaves the validation errors, exactly the general error, or none |
| SignIn.Validate | app/auth/signin.tsx:29-32 | the e-mail and password errors appear exactly for empty fields, with the fixed messages |
| SignIn.HandleSignIn | app/auth/signin.tsx:26-45 | errors are cleared first; sign-in is called exactly when both fields are filled; then success moves to the tabs and failure shows the single general error |
| SignIn.ShownAfterPress | app/auth/signin.tsx:26-45 | whatever was shown before, a press leaves the required-field errors, only the credentials error, or none |
| ForgotPassword.HandleResetPassword | app/auth/forgot-password.tsx:26-52 | an empty address only shows "Email requis"; otherwise loading starts, the error clears, the reset is called, the alert shows exactly on success, and loading ends |
| ForgotPassword.LoadingDuringCall | app/auth/forgot-password.tsx:32-36 | while the reset call is pending the screen is loading with no error |
| ForgotPassword.ScreenAfterPress | app/auth/forgot-password.tsx:26-52 | an empty address keeps the loading flag and shows the message; otherwise loading ends false, with the failure message exactly when the call failed |

## Left out

- The Firestore SDK itself is not modelled: `addDoc`, `updateDoc`, `setDoc`, `getDocs`, indexes and `serverTimestamp`. The store is an in-memory sequence of documents, and the server time is a parameter `now`.
- The `?.toDate() || new Date()` fallbacks are not modelled, because they read the wall clock. Dates are integers in milliseconds.
- `onSnapshot` delivery and unsubscription are library-owned concurrency. A snapshot is the feed's query run again over the current store.
- Expo push I/O is not modelled: `registerForPushNotificationsAsync`, permissions, the Android channel, listeners and `sendLocalNotification`. The gateway's answer to each call is an input function, and the registered token is a parameter.
- Firebase Auth (`signInWithEmailAndPassword`, `createUserWithEmailAndPassword`, `updateProfile`, `signOut`, `sendPasswordResetEmail`) is treated as an oracle that succeeds or fails.
- React state, hooks, rendering, styles and the bottom sheet are out of scope. Router moves, AsyncStorage writes and alerts are `Effect` values.
- The `isLoading` toggles of `signIn` and `signUp` are not modelled, since they bracket an oracle call.
- The files with no decision logic of their own are not modelled: the pickers, the input field, the layout, the splash screen and the entry routes.
- Reports.GetReports: reports with equal timestamps keep collection order. The backing store breaks such ties by document id, and that order is not modelled.
- Notifications.NotifyUsersOfNewReport: a reply whose `data` is present but is not a list is not modelled. `json?.data?.some` would throw on it, and the model treats every reply either as parsed statuses or as thrown.
- Only an HTTP error whose body parses as JSON lets the loop go on. A body that fails to parse throws inside the single `try` and ends the dispatch.
- AuthContext.OnAuthStateChanged: the race between this handler and `signUp`'s own profile write is not modelled. The handler runs after the write has settled, or on its own.
- The submit of app/(tabs)/report.tsx is modelled only from the store write on. Validation, the alerts and the form reset are left out, and a fan-out failure cannot reach its `catch` because `notifyUsersOfNewReport` catches everything itself.
- Reports.PatchReport: a patch cannot carry `id`, `createdAt` or `updatedAt`, although `Partial<OutageReport>` allows them. So the kept id and creation date hold because of the patch type. A caller that passed `createdAt` would overwrite it, and an `id` would become a stored field. A patched `updatedAt` is overwritten by the server stamp anyway.
- Domain.MergeUser: a `UserPatch` cannot carry `id`, `createdAt` or `updatedAt` either, which `Partial<User>` allows. In the shown profile (contexts/AuthContext.tsx:155) such fields would be copied as given.
- Notifications.ChunkArray: requires a positive size. The source's `chunkArray` never ends on a non-empty array when `size <= 0`, because `i += size` does not advance. Its only caller passes 100.
- AuthContext.NewProfile: a signed-in account without an e-mail (`email!`) is not modelled. The account always carries an e-mail string.
- AuthContext.SetDoc: `displayName: undefined` is written as an absent field. Firestore would reject an explicit `undefined` unless the SDK is configured to drop it, so that failure is folded into the write-failure parameter.
- SignUp.Validate: `password.length` counts UTF-16 code units. The model counts elements of an abstract character sequence.
- `serviceType` and `status` are plain strings rather than the two unions, because the screens cast unchecked form values into them. The card's fallbacks handle any other value.

## Findings

| source | as written | input that shows it | evidently intended | confidence | as-written member | corrected member |
|---|---|---|---|---|---|---|
| app/(tabs)/report.tsx:72-73 | the id returned by `createReport` is discarded and the unsaved draft, which has no `id`, is passed to `notifyUsersOfNewReport`, so every push carries `data.reportId` undefined | any report submitted while at least one subscriber has a push token | the fan-out receives the stored report, so every alert points at it | not executed | ReportScreen.AsWrittenLosesReportId | ReportScreen.SubmitFixed |
| lib/firestore.ts:25-32 | `createUser` writes with `updateDoc`, which fails on a document that does not exist, so it cannot create a profile (no file modelled here calls it; the auth context uses `setDoc` instead) | `createUser("u1", { email: "a@x" })` on a collection without "u1" | the profile is written when missing and stamped with its creation time | not executed | Profiles.CreateUserCannotCreate | Profiles.CreateUserFixed |
