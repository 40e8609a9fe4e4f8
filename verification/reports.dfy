/** The report half of lib/firestore.ts over an in-memory collection.
    The collection is a sequence in document order; that order is what the
    backing store falls back on between reports with equal timestamps. */
module Reports {
  import opened Wrappers
  import opened Seqs
  import opened Domain

  type Store = seq<OutageReport>

  /** Number of reports a feed shows when the caller gives no limit. */
  const DefaultLimit := 50

  predicate HasId(store: Store, id: string) {
    exists i :: 0 <= i < |store| && store[i].id == id
  }

  /** Document ids are unique in a collection. */
  predicate UniqueIds(store: Store) {
    forall i, j :: 0 <= i < j < |store| ==> store[i].id != store[j].id
  }

  // ---- writes ----

  /** The document `createReport` writes: the draft, an empty description when
      none is given, and the server time for both bookkeeping dates. */
  function NewReport(draft: ReportDraft, id: string, now: int): (r: OutageReport)
    ensures r.id == id && r.createdAt == now && r.updatedAt == now
    ensures r.description == Some(draft.description.GetOr(""))
    ensures r.userId == draft.userId && r.userName == draft.userName && r.userEmail == draft.userEmail
    ensures r.city == draft.city && r.neighborhood == draft.neighborhood && r.imageUrl == draft.imageUrl
    ensures r.serviceType == draft.serviceType && r.status == draft.status && r.timestamp == draft.timestamp
  {
    OutageReport(id, draft.userId, draft.userName, draft.userEmail, draft.city, draft.neighborhood,
                 draft.serviceType, draft.status, Some(draft.description.GetOr("")), draft.imageUrl,
                 draft.timestamp, now, now)
  }

  /** `createReport`: appends a document under a fresh id chosen by the store
      and returns that id. */
  function CreateReport(store: Store, draft: ReportDraft, id: string, now: int): (r: (Store, string))
    requires !HasId(store, id)
    ensures r.1 == id
    ensures r.0 == store + [NewReport(draft, id, now)]
    ensures UniqueIds(store) ==> UniqueIds(r.0)
  {
    (store + [NewReport(draft, id, now)], id)
  }

  /** `{ ...report, ...patch, updatedAt: now }`. */
  function PatchReport(report: OutageReport, patch: ReportPatch, now: int): (r: OutageReport)
    ensures r.id == report.id && r.createdAt == report.createdAt && r.updatedAt == now
    ensures r.userId == patch.userId.GetOr(report.userId)
    ensures r.userName == patch.userName.GetOr(report.userName)
    ensures r.userEmail == patch.userEmail.GetOr(report.userEmail)
    ensures r.city == patch.city.GetOr(report.city)
    ensures r.neighborhood == patch.neighborhood.GetOr(report.neighborhood)
    ensures r.serviceType == patch.serviceType.GetOr(report.serviceType)
    ensures r.status == patch.status.GetOr(report.status)
    ensures r.description == (if patch.description.Some? then patch.description else report.description)
    ensures r.imageUrl == (if patch.imageUrl.Some? then patch.imageUrl else report.imageUrl)
    ensures r.timestamp == patch.timestamp.GetOr(report.timestamp)
  {
    report.(userId := patch.userId.GetOr(report.userId),
            userName := patch.userName.GetOr(report.userName),
            userEmail := patch.userEmail.GetOr(report.userEmail),
            city := patch.city.GetOr(report.city),
            neighborhood := patch.neighborhood.GetOr(report.neighborhood),
            serviceType := patch.serviceType.GetOr(report.serviceType),
            status := patch.status.GetOr(report.status),
            description := if patch.description.Some? then patch.description else report.description,
            imageUrl := if patch.imageUrl.Some? then patch.imageUrl else report.imageUrl,
            timestamp := patch.timestamp.GetOr(report.timestamp),
            updatedAt := now)
  }

  /** Applies the patch to the documents with the given id, leaving the others alone. */
  function PatchWhere(store: Store, id: string, patch: ReportPatch, now: int): (r: Store)
    ensures |r| == |store|
    ensures forall i :: 0 <= i < |store| ==>
      r[i] == if store[i].id == id then PatchReport(store[i], patch, now) else store[i]
  {
    if |store| == 0 then []
    else [if store[0].id == id then PatchReport(store[0], patch, now) else store[0]]
         + PatchWhere(store[1..], id, patch, now)
  }

  /** `updateReport`: overwrites the supplied fields and `updatedAt` of an
      existing document; the update is rejected when no document has that id. */
  function UpdateReport(store: Store, id: string, patch: ReportPatch, now: int): (r: Result<Store, StoreError>)
    ensures r.Failure? <==> !HasId(store, id)
    ensures r.Failure? ==> r.error == NotFound
    ensures r.Success? ==> |r.value| == |store|
    ensures r.Success? ==> forall i :: 0 <= i < |store| && store[i].id != id ==> r.value[i] == store[i]
    ensures r.Success? ==> forall i :: 0 <= i < |store| && store[i].id == id ==> r.value[i] == PatchReport(store[i], patch, now)
    ensures r.Success? ==> forall i :: 0 <= i < |store| ==> r.value[i].id == store[i].id
    ensures r.Success? && UniqueIds(store) ==> UniqueIds(r.value)
  {
    if HasId(store, id) then Success(PatchWhere(store, id, patch, now)) else Failure(NotFound)
  }

  function NotId(id: string): OutageReport -> bool {
    (x: OutageReport) => x.id != id
  }

  /** `deleteReport`: drops the document; deleting an absent id is a no-op. */
  function DeleteReport(store: Store, id: string): (r: Store)
    ensures !HasId(r, id)
    ensures forall i :: 0 <= i < |store| && store[i].id != id ==> store[i] in r
    ensures Subsequence(r, store)
    ensures UniqueIds(store) ==> |r| == |store| - (if HasId(store, id) then 1 else 0)
  {
    var r := Filter(store, NotId(id));
    FilterIsSubsequence(store, NotId(id));
    if UniqueIds(store) then
      DeleteCount(store, id);
      r
    else r
  }

  lemma {:induction false} DeleteCount(store: Store, id: string)
    requires UniqueIds(store)
    ensures |Filter(store, NotId(id))| == |store| - (if HasId(store, id) then 1 else 0)
    decreases |store|
  {
    if |store| > 0 {
      DeleteCount(store[1..], id);
      if store[0].id == id {
        assert !HasId(store[1..], id);
      } else {
        assert HasId(store, id) == HasId(store[1..], id) by {
          if HasId(store, id) {
            var i :| 0 <= i < |store| && store[i].id == id;
            assert store[1..][i - 1].id == id;
          }
        }
      }
    }
  }

  // ---- queries ----

  /** A string filter argument is applied only when truthy: present and non-empty. */
  predicate Given(arg: Option<string>) {
    arg.Some? && arg.value != ""
  }

  /** The optional equality filters of `getReports` and `subscribeToReports`. */
  datatype ReportFilter = ReportFilter(city: Option<string>, serviceType: Option<string>, status: Option<string>)

  predicate Matches(r: OutageReport, f: ReportFilter) {
    && (Given(f.city) ==> r.city == f.city.value)
    && (Given(f.serviceType) ==> r.serviceType == f.serviceType.value)
    && (Given(f.status) ==> r.status == f.status.value)
  }

  predicate NewestFirst(s: seq<OutageReport>) {
    forall i, j :: 0 <= i < j < |s| ==> s[i].timestamp >= s[j].timestamp
  }

  /** The filter a query applies, as a predicate on reports. */
  function MatchesFilter(f: ReportFilter): OutageReport -> bool {
    (x: OutageReport) => Matches(x, f)
  }

  function ByUser(userId: string): OutageReport -> bool {
    (x: OutageReport) => x.userId == userId
  }

  /** Places `x` before the first report that is not newer than it. */
  function Insert(x: OutageReport, s: seq<OutageReport>): seq<OutageReport>
  {
    if |s| == 0 || s[0].timestamp <= x.timestamp then [x] + s
    else [s[0]] + Insert(x, s[1..])
  }

  /** Inserting adds exactly the one report. */
  lemma {:induction false} InsertMultiset(x: OutageReport, s: seq<OutageReport>)
    ensures multiset(Insert(x, s)) == multiset(s) + multiset{x}
    decreases |s|
  {
    if |s| > 0 && s[0].timestamp > x.timestamp {
      InsertMultiset(x, s[1..]);
      assert s == [s[0]] + s[1..];
    }
  }

  lemma {:induction false} InsertKeepsOrder(x: OutageReport, s: seq<OutageReport>)
    requires NewestFirst(s)
    ensures NewestFirst(Insert(x, s))
    decreases |s|
  {
    if |s| > 0 && s[0].timestamp > x.timestamp {
      NewestFirstTail(s);
      InsertKeepsOrder(x, s[1..]);
      InsertBounded(x, s[1..], s[0].timestamp);
      NewestFirstCons(s[0], Insert(x, s[1..]));
    } else {
      assert forall k :: 0 <= k < |s| ==> s[k].timestamp <= x.timestamp by {
        if |s| > 0 {
          assert forall k :: 0 <= k < |s| ==> s[k].timestamp <= s[0].timestamp;
        }
      }
      NewestFirstCons(x, s);
    }
  }

  /** Inserting under a bound keeps every timestamp under it. */
  lemma {:induction false} InsertBounded(x: OutageReport, s: seq<OutageReport>, bound: int)
    requires x.timestamp <= bound
    requires forall k :: 0 <= k < |s| ==> s[k].timestamp <= bound
    ensures forall k :: 0 <= k < |Insert(x, s)| ==> Insert(x, s)[k].timestamp <= bound
    decreases |s|
  {
    if |s| > 0 && s[0].timestamp > x.timestamp {
      assert forall k :: 0 <= k < |s[1..]| ==> s[1..][k] == s[k + 1];
      InsertBounded(x, s[1..], bound);
      assert Insert(x, s) == [s[0]] + Insert(x, s[1..]);
    }
  }

  lemma NewestFirstCons(h: OutageReport, t: seq<OutageReport>)
    requires NewestFirst(t)
    requires forall k :: 0 <= k < |t| ==> t[k].timestamp <= h.timestamp
    ensures NewestFirst([h] + t)
  {
    var r := [h] + t;
    forall i, j | 0 <= i < j < |r| ensures r[i].timestamp >= r[j].timestamp {
      if i == 0 {
        assert r[j] == t[j - 1];
      } else {
        assert r[i] == t[i - 1] && r[j] == t[j - 1];
      }
    }
  }

  lemma NewestFirstTail(s: seq<OutageReport>)
    requires NewestFirst(s) && |s| > 0
    ensures NewestFirst(s[1..])
    ensures forall k :: 0 <= k < |s[1..]| ==> s[1..][k].timestamp <= s[0].timestamp
  {
    assert forall k :: 0 <= k < |s[1..]| ==> s[1..][k] == s[k + 1];
  }

  /** `orderBy('timestamp', 'desc')`; reports with equal timestamps keep store order. */
  function SortNewestFirst(s: seq<OutageReport>): seq<OutageReport>
  {
    if |s| == 0 then [] else Insert(s[0], SortNewestFirst(s[1..]))
  }

  /** Sorting orders the reports newest first and neither adds nor drops any. */
  lemma {:induction false} SortIsPermutation(s: seq<OutageReport>)
    ensures NewestFirst(SortNewestFirst(s))
    ensures multiset(SortNewestFirst(s)) == multiset(s)
    ensures forall k :: 0 <= k < |SortNewestFirst(s)| ==> SortNewestFirst(s)[k] in s
    ensures |SortNewestFirst(s)| == |s|
    decreases |s|
  {
    if |s| > 0 {
      SortIsPermutation(s[1..]);
      InsertKeepsOrder(s[0], SortNewestFirst(s[1..]));
      InsertMultiset(s[0], SortNewestFirst(s[1..]));
      assert s == [s[0]] + s[1..];
      var r := SortNewestFirst(s);
      forall k | 0 <= k < |r| ensures r[k] in s {
        assert r[k] in multiset(r);
      }
      assert |r| == |multiset(r)|;
    }
  }

  /** The matching reports, newest first, at most `limitCount` of them; a
      non-positive limit is rejected by the query builder. */
  function GetReports(store: Store, f: ReportFilter, limitCount: int): (r: Result<seq<OutageReport>, StoreError>)
    ensures r.Failure? <==> limitCount <= 0
    ensures r.Failure? ==> r.error == InvalidArgument
    ensures r.Success? ==> |r.value| == Min(limitCount, |Filter(store, MatchesFilter(f))|)
    ensures r.Success? ==> forall i :: 0 <= i < |r.value| ==> Matches(r.value[i], f) && r.value[i] in store
    ensures r.Success? ==> NewestFirst(r.value)
    ensures r.Success? ==> multiset(r.value) <= multiset(Filter(store, MatchesFilter(f)))
  {
    var matching := Filter(store, MatchesFilter(f));
    if limitCount <= 0 then Failure(InvalidArgument)
    else
      SortIsPermutation(matching);
      PrefixFacts(SortNewestFirst(matching), Min(limitCount, |matching|));
      Success(Newest(matching, limitCount))
  }

  /** The first `limitCount` of the given reports once sorted newest first. */
  function Newest(matching: seq<OutageReport>, limitCount: int): seq<OutageReport>
    requires limitCount > 0
  {
    SortNewestFirst(matching)[..Min(limitCount, |SortNewestFirst(matching)|)]
  }

  lemma PrefixFacts(s: seq<OutageReport>, n: nat)
    requires n <= |s|
    ensures NewestFirst(s) ==> NewestFirst(s[..n])
    ensures multiset(s[..n]) <= multiset(s)
    ensures forall i :: 0 <= i < n ==> s[..n][i] in s
  {
    assert s == s[..n] + s[n..];
  }

  /** `getReports` called without a limit. */
  function GetReportsDefault(store: Store, f: ReportFilter): (r: seq<OutageReport>)
    ensures |r| <= DefaultLimit
    ensures NewestFirst(r)
    ensures forall i :: 0 <= i < |r| ==> Matches(r[i], f) && r[i] in store
  {
    GetReports(store, f, DefaultLimit).value
  }

  /** The limit keeps the newest: a matching report left out of a result is no
      newer than anything in it. */
  lemma LimitKeepsNewest(store: Store, f: ReportFilter, limitCount: int, x: OutageReport)
    requires limitCount > 0
    requires x in store && Matches(x, f)
    requires x !in GetReports(store, f, limitCount).value
    ensures forall i :: 0 <= i < |GetReports(store, f, limitCount).value| ==>
      x.timestamp <= GetReports(store, f, limitCount).value[i].timestamp
  {
    var matching := Filter(store, MatchesFilter(f));
    var sorted := SortNewestFirst(matching);
    SortIsPermutation(matching);
    var n := Min(limitCount, |sorted|);
    assert GetReports(store, f, limitCount).value == sorted[..n];
    assert x in matching;
    assert x in multiset(sorted);
    var k :| 0 <= k < |sorted| && sorted[k] == x;
    var kept := sorted[..n];
    assert forall i :: 0 <= i < n ==> kept[i] == sorted[i];
    assert k >= n;
  }

  /** `getUserReports`: every report of the user, newest first, no limit. */
  function GetUserReports(store: Store, userId: string): (r: seq<OutageReport>)
    ensures forall i :: 0 <= i < |r| ==> r[i].userId == userId && r[i] in store
    ensures NewestFirst(r)
    ensures forall i :: 0 <= i < |store| && store[i].userId == userId ==>
      multiset(r)[store[i]] == multiset(store)[store[i]]
  {
    var mine := Filter(store, ByUser(userId));
    FilterCount(store, ByUser(userId));
    SortIsPermutation(mine);
    SortNewestFirst(mine)
  }

  /** Filtering keeps every copy of a kept element. */
  lemma {:induction false} FilterCount<T>(s: seq<T>, p: T -> bool)
    ensures forall i :: 0 <= i < |s| && p(s[i]) ==> multiset(Filter(s, p))[s[i]] == multiset(s)[s[i]]
    decreases |s|
  {
    if |s| > 0 {
      FilterCount(s[1..], p);
      assert s == [s[0]] + s[1..];
      var rest := Filter(s[1..], p);
      assert Filter(s, p) == (if p(s[0]) then [s[0]] else []) + rest;
      forall i | 0 <= i < |s| && p(s[i])
        ensures multiset(Filter(s, p))[s[i]] == multiset(s)[s[i]]
      {
        if s[i] in s[1..] {
          var j :| 0 <= j < |s[1..]| && s[1..][j] == s[i];
          assert multiset(rest)[s[i]] == multiset(s[1..])[s[i]];
        } else {
          assert i == 0;
          assert s[i] !in rest;
          assert multiset(rest)[s[i]] == 0;
        }
      }
    }
  }

  // ---- live feeds ----

  /** One live feed: the filter and limit a screen subscribes with. */
  datatype Feed = Feed(filter: ReportFilter, limitCount: int)

  /** `subscribeToReports`: every change of the collection re-runs the feed's
      query and hands the whole result to the callback. */
  function Snapshot(feed: Feed, store: Store): (r: Result<seq<OutageReport>, StoreError>)
    ensures r.Success? ==> |r.value| <= feed.limitCount && NewestFirst(r.value)
    ensures r.Success? ==> forall i :: 0 <= i < |r.value| ==> Matches(r.value[i], feed.filter)
    ensures r.Failure? <==> feed.limitCount <= 0
  {
    GetReports(store, feed.filter, feed.limitCount)
  }

  /** A write the feed's filter rejects leaves that feed's snapshot unchanged:
      independent feeds do not see each other's reports. */
  lemma {:induction false} UnrelatedReportLeavesFeed(feed: Feed, store: Store, x: OutageReport)
    requires !Matches(x, feed.filter)
    ensures Snapshot(feed, store + [x]) == Snapshot(feed, store)
  {
    var p := MatchesFilter(feed.filter);
    FilterAppend(store, [x], p);
    assert Filter([x], p) == [];
    assert Filter(store + [x], p) == Filter(store, p);
  }

  /** A newly created report is among its author's reports. */
  lemma CreatedReportListed(store: Store, draft: ReportDraft, id: string, now: int)
    requires !HasId(store, id)
    ensures NewReport(draft, id, now) in GetUserReports(CreateReport(store, draft, id, now).0, draft.userId)
  {
    var s' := CreateReport(store, draft, id, now).0;
    var x := NewReport(draft, id, now);
    assert s'[|store|] == x;
    assert multiset(s')[x] > 0;
  }
}
