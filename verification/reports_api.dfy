/**
 * The report endpoints: listing a tenant's reports for its reviewers,
 * submitting a report, and the gate in front of "my reports".
 */
module ReportsApi {
  import opened Common
  import opened Platform
  import opened Identity
  import opened ObjectIds
  import opened ReportStore

  const Unauthorized := "Unauthorized"
  const TenantRequired := "company_id is required"
  const ReviewersOnly := "Forbidden: Owners and team members only"
  const MissingFields := "Missing required fields: reportedUsername, description, proofImageUrl, companyId"
  const InternalError := "Internal server error"

  /** The tenant of a listing: the `company_id` query parameter, else the caller's own. */
  function ListingTenant(auth: AuthInfo, query: map<string, string>): (c: Option<string>)
    ensures Truthy(Lookup(query, "company_id")).Some? ==> c == Some(query["company_id"])
    ensures Truthy(Lookup(query, "company_id")).None? ==> c == Truthy(auth.companyId)
  {
    var candidates := [Lookup(query, "company_id"), auth.companyId];
    var c := FirstTruthy(candidates);
    assert candidates[0] == Lookup(query, "company_id") && candidates[1] == auth.companyId;
    assert c.Some? && Truthy(candidates[0]).None? ==> c == candidates[1];
    c
  }

  /** Owners and team members may review a tenant's reports. */
  predicate MayReview(p: Whop, userId: string, companyId: string)
  {
    IsCompanyOwner(p, userId, companyId) || IsTeamMember(p, userId, companyId)
  }

  /**
   * List a tenant's reports, given the verifier's result: 401 without a
   * caller, 400 without a tenant, 403 unless the caller owns the tenant or is
   * on its team; otherwise exactly the tenant's reports, newest first.
   */
  function ListReports(auth: Option<AuthInfo>, query: map<string, string>, p: Whop, store: Store)
    : (r: Response<seq<Report>>)
    ensures auth.None? <==> r == Error(401, Unauthorized)
    ensures auth.Some? && ListingTenant(auth.value, query).None? <==> r == Error(400, TenantRequired)
    ensures r == Error(403, ReviewersOnly) <==>
      auth.Some? && ListingTenant(auth.value, query).Some? &&
      !MayReview(p, auth.value.userId, ListingTenant(auth.value, query).value)
    ensures r.Success? ==>
      && auth.Some? && r.code == 200
      && var c := ListingTenant(auth.value, query).value;
      && MayReview(p, auth.value.userId, c)
      && NewestFirst(r.body)
      && multiset(r.body) == multiset(OfCompany(store, c))
      && (forall x :: x in r.body <==> x in store && x.companyId == c)
    ensures (auth.Some? && ListingTenant(auth.value, query).Some? &&
             MayReview(p, auth.value.userId, ListingTenant(auth.value, query).value)) ==> r.Success?
  {
    ListReportsOver(ClientPromise, auth, query, p, store)
  }

  /** The listing over a database binding: the gates, then the store query, which throws unless the collection opens. */
  function ListReportsOver(b: Binding, auth: Option<AuthInfo>, query: map<string, string>, p: Whop, store: Store)
    : Response<seq<Report>>
  {
    match auth
    case None => Error(401, Unauthorized)
    case Some(caller) =>
      var companyId := ListingTenant(caller, query);
      if companyId.None? then Error(400, TenantRequired)
      else if !MayReview(p, caller.userId, companyId.value) then Error(403, ReviewersOnly)
      else if !CollectionOpens(b) then Error(500, InternalError)
      else Success(200, ListByCompany(store, companyId.value))
  }

  /**
   * The listing with the database import as written: every refusal is the
   * same, and every caller who passes the gates gets 500 instead of the list.
   */
  function ListReportsAsWritten(auth: Option<AuthInfo>, query: map<string, string>, p: Whop, store: Store)
    : (r: Response<seq<Report>>)
    ensures r.Error?
    ensures ListReports(auth, query, p, store).Error? ==> r == ListReports(auth, query, p, store)
    ensures ListReports(auth, query, p, store).Success? ==> r == Error(500, InternalError)
  {
    ListReportsOver(ImportedBinding, auth, query, p, store)
  }

  /** A refused listing does not depend on the store: it is decided before the store is read. */
  lemma RefusedListingReadsNoStore(auth: Option<AuthInfo>, query: map<string, string>, p: Whop, s1: Store, s2: Store)
    requires ListReports(auth, query, p, s1).Error?
    ensures ListReports(auth, query, p, s2) == ListReports(auth, query, p, s1)
  {
  }

  /** A report submission's JSON body; a missing or `null` field is `None`. */
  datatype SubmitBody = SubmitBody(
    reportedUsername: Option<string>,
    description: Option<string>,
    proofImageUrl: Option<string>,
    companyId: Option<string>)

  /** The tenant of a submission: the body's, else the caller's, else the query parameter. */
  function SubmissionTenant(auth: AuthInfo, body: SubmitBody, query: map<string, string>): (c: Option<string>)
    ensures Truthy(body.companyId).Some? ==> c == body.companyId
    ensures Truthy(body.companyId).None? && Truthy(auth.companyId).Some? ==> c == auth.companyId
    ensures Truthy(body.companyId).None? && Truthy(auth.companyId).None? ==> c == Truthy(Lookup(query, "company_id"))
  {
    var candidates := [body.companyId, auth.companyId, Lookup(query, "company_id")];
    var c := FirstTruthy(candidates);
    assert candidates[0] == body.companyId && candidates[1] == auth.companyId
      && candidates[2] == Lookup(query, "company_id");
    c
  }

  /** All required fields are present and non-empty, and so is the tenant. */
  predicate Complete(auth: AuthInfo, body: SubmitBody, query: map<string, string>)
  {
    && Truthy(body.reportedUsername).Some?
    && Truthy(body.description).Some?
    && Truthy(body.proofImageUrl).Some?
    && SubmissionTenant(auth, body, query).Some?
  }

  /** The reporter's username, or "Unknown" when the platform cannot say. */
  function ReporterName(p: Whop, userId: string): string
  {
    match p.username(userId)
    case Ok(name) => name
    case Fail => "Unknown"
  }

  datatype Submitted = Submitted(response: Response<Report>, store: Store)

  /**
   * Submit a report, given the verifier's result, the parsed body (`None`
   * when it is not JSON), the id the store generates and the current time.
   * 401 without a caller; 400 when a required field or the tenant is
   * missing; otherwise a `pending` report by the caller is stored and
   * returned with 201. Every refusal leaves the store as it was.
   */
  function SubmitReport(auth: Option<AuthInfo>, body: Option<SubmitBody>, query: map<string, string>,
                        p: Whop, store: Store, id: ObjectId, now: Timestamp): (r: Submitted)
    ensures r.response.Error? ==> r.store == store
    ensures auth.None? ==> r.response == Error(401, Unauthorized)
    ensures auth.Some? && body.None? ==> r.response.code == 500
    ensures r.response == Error(400, MissingFields) <==>
      auth.Some? && body.Some? && !Complete(auth.value, body.value, query)
    ensures r.response.Success? <==>
      auth.Some? && body.Some? && Complete(auth.value, body.value, query) &&
      forall i :: 0 <= i < |store| ==> store[i].id != id
    ensures r.response.Success? ==>
      var report := r.response.body;
      && r.response.code == 201
      && r.store == store + [report]
      && report.id == id && report.createdAt == now
      && report.status == Pending && report.reviewedAt.None? && report.reviewedBy.None?
      && report.reporterUserId == auth.value.userId
      && report.reporterUsername == ReporterName(p, auth.value.userId)
      && (p.username(auth.value.userId).Fail? ==> report.reporterUsername == "Unknown")
      && Some(report.reportedUsername) == body.value.reportedUsername
      && Some(report.description) == body.value.description
      && Some(report.proofImageUrl) == body.value.proofImageUrl
      && Some(report.companyId) == SubmissionTenant(auth.value, body.value, query)
    ensures Valid(store) ==> Valid(r.store)
  {
    SubmitReportOver(ClientPromise, auth, body, query, p, store, id, now)
  }

  /** A submission over a database binding: the checks, then the insert, which throws unless the collection opens. */
  function SubmitReportOver(b: Binding, auth: Option<AuthInfo>, body: Option<SubmitBody>, query: map<string, string>,
                            p: Whop, store: Store, id: ObjectId, now: Timestamp): Submitted
  {
    match auth
    case None => Submitted(Error(401, Unauthorized), store)
    case Some(caller) =>
      match body
      case None => Submitted(Error(500, InternalError), store)
      case Some(fields) =>
        if !Complete(caller, fields, query) then Submitted(Error(400, MissingFields), store)
        else if !CollectionOpens(b) then Submitted(Error(500, InternalError), store)
        else
          var draft := Draft(fields.reportedUsername.value, fields.description.value,
                             fields.proofImageUrl.value, caller.userId, ReporterName(p, caller.userId),
                             SubmissionTenant(caller, fields, query).value, Pending, None, None);
          match Create(store, draft, id, now)
          case DuplicateKey => Submitted(Error(500, InternalError), store)
          case Created(store', report) => Submitted(Success(201, report), store')
  }

  /**
   * A submission with the database import as written: every refusal is the
   * same, a complete submission gets 500 instead of 201, and the store never
   * changes.
   */
  function SubmitReportAsWritten(auth: Option<AuthInfo>, body: Option<SubmitBody>, query: map<string, string>,
                                 p: Whop, store: Store, id: ObjectId, now: Timestamp): (r: Submitted)
    ensures r.response.Error? && r.store == store
    ensures SubmitReport(auth, body, query, p, store, id, now).response.Error? ==>
      r.response == SubmitReport(auth, body, query, p, store, id, now).response
    ensures SubmitReport(auth, body, query, p, store, id, now).response.Success? ==>
      r.response == Error(500, InternalError)
  {
    SubmitReportOver(ImportedBinding, auth, body, query, p, store, id, now)
  }

  /** The caller and tenant whose own reports are to be listed. */
  datatype ReporterScope = ReporterScope(userId: string, companyId: string)

  /**
   * The gate in front of "my reports", given the verifier's result: 401
   * without a caller or with an empty user id; 400 without a tenant, where
   * the query parameter beats the caller's own tenant.
   */
  function MyReportsScope(auth: Option<AuthInfo>, query: map<string, string>): (r: Response<ReporterScope>)
    ensures r == Error(401, Unauthorized) <==> auth.None? || auth.value.userId == ""
    ensures r == Error(400, TenantRequired) <==>
      auth.Some? && auth.value.userId != "" && ListingTenant(auth.value, query).None?
    ensures r.Success? ==>
      && auth.Some? && r.code == 200
      && r.body.userId == auth.value.userId && r.body.userId != ""
      && Some(r.body.companyId) == ListingTenant(auth.value, query)
      && r.body.companyId != ""
    ensures auth.Some? && auth.value.userId != "" && ListingTenant(auth.value, query).Some? ==> r.Success?
  {
    if auth.None? || auth.value.userId == "" then Error(401, Unauthorized)
    else
      var companyId := ListingTenant(auth.value, query);
      if companyId.None? then Error(400, TenantRequired)
      else Success(200, ReporterScope(auth.value.userId, companyId.value))
  }
}
