/**
 * The report store: a collection of report records, every query scoped by
 * tenant (company). Modelled as a sequence of records in insertion order.
 */
module ReportStore {
  import opened Common
  import opened ObjectIds

  datatype Status = Pending | Approved | Denied

  /** The statuses a review may set. */
  type ReviewStatus = s: Status | s != Pending witness Approved

  /** A point in time; only its order matters. */
  type Timestamp = nat

  /** A report as submitted, before the store gives it an id and a creation time. */
  datatype Draft = Draft(
    reportedUsername: string,
    description: string,
    proofImageUrl: string,
    reporterUserId: string,
    reporterUsername: string,
    companyId: string,
    status: Status,
    reviewedAt: Option<Timestamp>,
    reviewedBy: Option<string>)

  datatype Report = Report(
    id: ObjectId,
    reportedUsername: string,
    description: string,
    proofImageUrl: string,
    reporterUserId: string,
    reporterUsername: string,
    companyId: string,
    status: Status,
    createdAt: Timestamp,
    reviewedAt: Option<Timestamp>,
    reviewedBy: Option<string>)

  type Store = seq<Report>

  /**
   * What the store's database import is bound to: the promise of a connected
   * client it is used as, or the function returning that promise, which is
   * what src/lib/mongodb.ts:42 exports.
   */
  datatype Binding = ClientPromise | ClientPromiseFactory

  /** The binding src/lib/models/Report.ts:1 receives as the source is written. */
  const ImportedBinding := ClientPromiseFactory

  /**
   * Whether the reports collection can be opened. Awaiting a function yields
   * the function itself, which has no `db` method, so every store operation
   * throws before it reads or writes anything.
   */
  predicate CollectionOpens(b: Binding)
  {
    b.ClientPromise?
  }

  /** No two records share an id (the store's unique primary key). */
  ghost predicate Valid(store: Store)
  {
    forall i, j :: 0 <= i < j < |store| ==> store[i].id != store[j].id
  }

  /** The submitted fields of a stored report. */
  function DraftOf(r: Report): Draft
  {
    Draft(r.reportedUsername, r.description, r.proofImageUrl, r.reporterUserId,
          r.reporterUsername, r.companyId, r.status, r.reviewedAt, r.reviewedBy)
  }

  datatype CreateResult = Created(store: Store, report: Report) | DuplicateKey

  /**
   * Insert a report under the id the store generated, stamped with the
   * current time. The submitted fields are kept unchanged; an id already in
   * use is refused.
   */
  function Create(store: Store, draft: Draft, id: ObjectId, now: Timestamp): (res: CreateResult)
    ensures res.DuplicateKey? <==> exists i :: 0 <= i < |store| && store[i].id == id
    ensures res.Created? ==>
      && DraftOf(res.report) == draft
      && res.report.id == id
      && res.report.createdAt == now
      && res.store == store + [res.report]
    ensures res.Created? && Valid(store) ==> Valid(res.store)
  {
    var k := FirstIndex(store, (r: Report) => r.id == id);
    if k < |store| then DuplicateKey
    else
      var report := Report(id, draft.reportedUsername, draft.description, draft.proofImageUrl,
                           draft.reporterUserId, draft.reporterUsername, draft.companyId,
                           draft.status, now, draft.reviewedAt, draft.reviewedBy);
      Created(store + [report], report)
  }

  /** The tenant's records, in store order. */
  function OfCompany(store: Store, companyId: string): (r: seq<Report>)
    ensures forall x :: x in r <==> x in store && x.companyId == companyId
    ensures |r| <= |store|
  {
    if |store| == 0 then []
    else
      var init := store[..|store| - 1];
      var last := store[|store| - 1];
      assert store == init + [last];
      var rest := OfCompany(init, companyId);
      if last.companyId == companyId then rest + [last] else rest
  }

  /** Ordered newest first. */
  ghost predicate NewestFirst(s: seq<Report>)
  {
    forall i, j :: 0 <= i < j < |s| ==> s[i].createdAt >= s[j].createdAt
  }

  /** No record of `s` is newer than `t`. */
  ghost predicate NoneNewerThan(s: seq<Report>, t: Timestamp)
  {
    forall i :: 0 <= i < |s| ==> s[i].createdAt <= t
  }

  /** A bound on creation times carries over to any permutation. */
  lemma NoneNewerThanPermutation(a: seq<Report>, b: seq<Report>, t: Timestamp)
    requires multiset(a) == multiset(b)
    requires NoneNewerThan(b, t)
    ensures NoneNewerThan(a, t)
  {
    forall i | 0 <= i < |a| ensures a[i].createdAt <= t {
      assert a[i] in multiset(b);
    }
  }

  /** A record no older than everything in a newest-first sequence can lead it. */
  lemma NewestFirstCons(r: Report, s: seq<Report>)
    requires NewestFirst(s)
    requires NoneNewerThan(s, r.createdAt)
    ensures NewestFirst([r] + s)
  {
  }

  /** Insert into a newest-first sequence, keeping it newest first. */
  function InsertNewest(r: Report, s: seq<Report>): (t: seq<Report>)
    requires NewestFirst(s)
    ensures NewestFirst(t)
    ensures multiset(t) == multiset(s) + multiset{r}
    ensures |t| == |s| + 1
  {
    if |s| == 0 then [r]
    else if r.createdAt >= s[0].createdAt then
      NewestFirstCons(r, s);
      [r] + s
    else
      var rest := InsertNewest(r, s[1..]);
      assert NoneNewerThan(s[1..] + [r], s[0].createdAt);
      NoneNewerThanPermutation(rest, s[1..] + [r], s[0].createdAt);
      NewestFirstCons(s[0], rest);
      assert s == [s[0]] + s[1..];
      [s[0]] + rest
  }

  /** Sort newest first (ties in any order, as the database allows). */
  function SortNewestFirst(s: seq<Report>): (t: seq<Report>)
    ensures NewestFirst(t)
    ensures multiset(t) == multiset(s)
    ensures |t| == |s|
  {
    if |s| == 0 then []
    else
      assert s == [s[0]] + s[1..];
      InsertNewest(s[0], SortNewestFirst(s[1..]))
  }

  /**
   * The tenant's reports, newest first: exactly the stored records of that
   * company, each as often as it is stored, and no record of another company.
   */
  function ListByCompany(store: Store, companyId: string): (r: seq<Report>)
    ensures NewestFirst(r)
    ensures multiset(r) == multiset(OfCompany(store, companyId))
    ensures forall x :: x in r <==> x in store && x.companyId == companyId
  {
    var t := SortNewestFirst(OfCompany(store, companyId));
    assert forall x :: x in t <==> x in OfCompany(store, companyId) by {
      forall x ensures x in t <==> x in OfCompany(store, companyId) {
        assert x in t <==> x in multiset(t);
      }
    }
    t
  }

  /** The record is the one with this id in this tenant. */
  predicate Matches(r: Report, id: ObjectId, companyId: string)
  {
    r.id == id && r.companyId == companyId
  }

  /** The first record with this id in this tenant, or `|store|`. */
  function Locate(store: Store, id: ObjectId, companyId: string): (k: nat)
    ensures k <= |store|
    ensures k < |store| ==> Matches(store[k], id, companyId)
    ensures forall j :: 0 <= j < k ==> !Matches(store[j], id, companyId)
  {
    FirstIndex(store, (r: Report) => Matches(r, id, companyId))
  }

  /**
   * Fetch one report by id, scoped to a tenant: a malformed id, an unknown id
   * and an id of another tenant's report all give nothing.
   */
  function GetById(store: Store, id: string, companyId: string): (r: Option<Report>)
    ensures Parse(id).None? ==> r.None?
    ensures r.Some? ==> r.value in store && r.value.id == Parse(id).value && r.value.companyId == companyId
    ensures r.None? && Parse(id).Some? ==> forall x :: x in store ==> !Matches(x, Parse(id).value, companyId)
  {
    match Parse(id)
    case None => None
    case Some(oid) =>
      var k := Locate(store, oid, companyId);
      if k < |store| then Some(store[k])
      else
        assert forall x :: x in store ==> !Matches(x, oid, companyId) by {
          forall x | x in store ensures !Matches(x, oid, companyId) {
            var j :| 0 <= j < |store| && store[j] == x;
          }
        }
        None
  }

  /** The fields a review does not touch are equal. */
  predicate SameSubmission(a: Report, b: Report)
  {
    && a.id == b.id
    && a.reportedUsername == b.reportedUsername
    && a.description == b.description
    && a.proofImageUrl == b.proofImageUrl
    && a.reporterUserId == b.reporterUserId
    && a.reporterUsername == b.reporterUsername
    && a.companyId == b.companyId
    && a.createdAt == b.createdAt
  }

  datatype UpdateResult = UpdateResult(store: Store, report: Option<Report>)

  /**
   * Record a review: on the report with this id in this tenant, set the
   * status, the review time and the reviewer, and nothing else. Whatever the
   * report's current status, the review applies. With a malformed id, or no
   * such report in this tenant, nothing changes and nothing is returned.
   */
  function UpdateStatus(store: Store, id: string, companyId: string, status: ReviewStatus,
                        reviewedBy: string, now: Timestamp): (res: UpdateResult)
    ensures |res.store| == |store|
    ensures res.report.None? <==>
      Parse(id).None? || forall x :: x in store ==> !Matches(x, Parse(id).value, companyId)
    ensures res.report.None? ==> res.store == store
    ensures res.report.Some? ==>
      exists k :: 0 <= k < |store| && Matches(store[k], Parse(id).value, companyId)
        && res.store[k] == res.report.value
        && SameSubmission(store[k], res.report.value)
        && res.report.value.status == status
        && res.report.value.reviewedAt == Some(now)
        && res.report.value.reviewedBy == Some(reviewedBy)
        && forall j :: 0 <= j < |store| && j != k ==> res.store[j] == store[j]
    ensures Valid(store) ==> Valid(res.store)
  {
    match Parse(id)
    case None => UpdateResult(store, None)
    case Some(oid) =>
      var k := Locate(store, oid, companyId);
      if k < |store| then
        var reviewed := store[k].(status := status, reviewedAt := Some(now), reviewedBy := Some(reviewedBy));
        UpdateResult(store[k := reviewed], Some(reviewed))
      else
        assert forall x :: x in store ==> !Matches(x, oid, companyId) by {
          forall x | x in store ensures !Matches(x, oid, companyId) {
            var j :| 0 <= j < |store| && store[j] == x;
          }
        }
        UpdateResult(store, None)
  }

  /** A report of one tenant is never returned to a query scoped to another tenant. */
  lemma GetByIdIsolatesTenants(store: Store, x: Report, companyId: string)
    requires Valid(store)
    requires x in store
    requires x.companyId != companyId
    ensures GetById(store, x.id, companyId).None?
  {
  }

  /** A stored report is found by its printed id within its own tenant. */
  lemma GetByIdFindsOwn(store: Store, x: Report)
    requires Valid(store)
    requires x in store
    ensures GetById(store, x.id, x.companyId) == Some(x)
  {
  }

  /** Two stores that differ only in records of tenant `c` look the same to every other tenant. */
  lemma {:induction false} OfCompanyIgnoresOtherTenants(a: Store, b: Store, c: string, other: string)
    requires other != c
    requires |a| == |b|
    requires forall i :: 0 <= i < |a| && a[i] != b[i] ==> a[i].companyId == c && b[i].companyId == c
    ensures OfCompany(a, other) == OfCompany(b, other)
  {
    if |a| > 0 {
      var n := |a| - 1;
      OfCompanyIgnoresOtherTenants(a[..n], b[..n], c, other);
    }
  }

  /** Reviewing a report of one tenant changes nothing that another tenant can list. */
  lemma UpdateInvisibleToOtherTenants(store: Store, id: string, c: string, status: ReviewStatus,
                                      reviewedBy: string, now: Timestamp, other: string)
    requires other != c
    ensures ListByCompany(UpdateStatus(store, id, c, status, reviewedBy, now).store, other)
         == ListByCompany(store, other)
  {
    var res := UpdateStatus(store, id, c, status, reviewedBy, now);
    if res.report.Some? {
      var k :| 0 <= k < |store| && Matches(store[k], Parse(id).value, c)
        && res.store[k] == res.report.value
        && SameSubmission(store[k], res.report.value)
        && forall j :: 0 <= j < |store| && j != k ==> res.store[j] == store[j];
      OfCompanyIgnoresOtherTenants(store, res.store, c, other);
    }
  }

  /** Creating a report of one tenant changes nothing that another tenant can list. */
  lemma CreateInvisibleToOtherTenants(store: Store, draft: Draft, id: ObjectId, now: Timestamp, other: string)
    requires other != draft.companyId
    requires Create(store, draft, id, now).Created?
    ensures ListByCompany(Create(store, draft, id, now).store, other) == ListByCompany(store, other)
  {
  }

  /** A review applies whatever the report's status, so a decided report can be decided again. */
  lemma ReviewHasNoPendingGuard(store: Store, x: Report, status: ReviewStatus, reviewedBy: string, now: Timestamp)
    requires Valid(store)
    requires x in store
    ensures UpdateStatus(store, x.id, x.companyId, status, reviewedBy, now).report
         == Some(x.(status := status, reviewedAt := Some(now), reviewedBy := Some(reviewedBy)))
  {
  }
}
