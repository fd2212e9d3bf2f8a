/**
 * Identity verification, tenant resolution and authorization lookups
 * (the helpers of the platform SDK wrapper).
 */
module Identity {
  import opened Common
  import opened Platform

  /** A request URL: either it parses, exposing its query parameters, or it does not. */
  datatype Url = Malformed | Parsed(query: map<string, string>)

  /** A verified caller: the user, and the tenant (company) when one could be resolved. */
  datatype AuthInfo = AuthInfo(userId: string, companyId: Option<string>)

  const UserTokenHeader := "x-whop-user-token"
  const CompanyHeader := "x-whop-company-id"

  /** The experience-id headers, in the order they are consulted. */
  const ExperienceHeaders: seq<string> :=
    ["x-whop-experience-id", "whop-experience-id", "x-experience-id", "experience-id"]

  /** The experience id carried by the headers: the first non-empty of `ExperienceHeaders`. */
  function HeaderExperienceId(headers: map<string, string>): (r: Option<string>)
    ensures r.None? <==>
      forall i :: 0 <= i < |ExperienceHeaders| ==> Truthy(Lookup(headers, ExperienceHeaders[i])).None?
    ensures r.Some? ==> (r.value != "" &&
      exists i :: 0 <= i < |ExperienceHeaders| && Lookup(headers, ExperienceHeaders[i]) == r
        && forall j :: 0 <= j < i ==> Truthy(Lookup(headers, ExperienceHeaders[j])).None?)
  {
    var candidates := seq(|ExperienceHeaders|, i requires 0 <= i < |ExperienceHeaders| =>
      Lookup(headers, ExperienceHeaders[i]));
    assert forall i :: 0 <= i < |candidates| ==> candidates[i] == Lookup(headers, ExperienceHeaders[i]);
    FirstTruthy(candidates)
  }

  /** Resolve an experience to its company through the platform; a failed call gives nothing. */
  function CompanyOfExperience(p: Whop, experienceId: string): Option<string>
  {
    match p.experienceCompany(experienceId)
    case Ok(company) => company
    case Fail => None
  }

  /**
   * Tenant resolution from the experience: header experience id first; only
   * without one is the URL consulted, where `experience` beats `company_id`
   * and `company_id` is taken as it is, with no platform lookup.
   */
  function CompanyIdFromExperience(p: Whop, headers: map<string, string>, url: Option<Url>): (r: Option<string>)
    ensures HeaderExperienceId(headers).Some? ==>
      r == CompanyOfExperience(p, HeaderExperienceId(headers).value)
    ensures HeaderExperienceId(headers).None? && (url.None? || url.value.Malformed?) ==> r.None?
    ensures HeaderExperienceId(headers).None? && url.Some? && url.value.Parsed? ==>
      var q := url.value.query;
      r == (if Truthy(Lookup(q, "experience")).Some?
            then CompanyOfExperience(p, Lookup(q, "experience").value)
            else Truthy(Lookup(q, "company_id")))
  {
    var fromHeaders := HeaderExperienceId(headers);
    if fromHeaders.Some? then CompanyOfExperience(p, fromHeaders.value)
    else
      match url
      case None => None
      case Some(Malformed) => None
      case Some(Parsed(query)) =>
        var experience := Truthy(Lookup(query, "experience"));
        if experience.Some? then CompanyOfExperience(p, experience.value)
        else Truthy(Lookup(query, "company_id"))
  }

  /** The user id a token verifies to, when the client, the token and the app id are all present. */
  function TokenUser(env: Env, p: Whop, headers: map<string, string>): Option<string>
  {
    var token := Truthy(Lookup(headers, UserTokenHeader));
    var appId := Truthy(env.appId);
    if !ClientAvailable(env) || token.None? || appId.None? then None
    else
      match p.verifyToken(token.value, appId.value)
      case Ok(payload) => Truthy(payload)
      case Fail => None
  }

  /**
   * Verify the caller from the request headers (and the request URL, when known).
   * Fails closed: no API key, no token, no app id, a failed verification or a
   * payload without a user id all give no caller. The explicit company header
   * takes precedence over resolution through the experience.
   */
  function VerifyUserFromHeaders(env: Env, p: Whop, headers: map<string, string>, url: Option<Url>): (r: Option<AuthInfo>)
    ensures r.Some? <==>
      && ClientAvailable(env)
      && Truthy(Lookup(headers, UserTokenHeader)).Some?
      && Truthy(env.appId).Some?
      && exists u :: u != "" && p.verifyToken(headers[UserTokenHeader], env.appId.value) == Ok(Some(u))
    ensures r.Some? ==>
      (r.value.userId != "" && p.verifyToken(headers[UserTokenHeader], env.appId.value) == Ok(Some(r.value.userId)))
    ensures r.Some? && Truthy(Lookup(headers, CompanyHeader)).Some? ==>
      r.value.companyId == Some(headers[CompanyHeader])
    ensures r.Some? && Truthy(Lookup(headers, CompanyHeader)).None? ==>
      r.value.companyId == CompanyIdFromExperience(p, headers, url)
  {
    var user := TokenUser(env, p, headers);
    if user.None? then None
    else
      var companyId :=
        if Truthy(Lookup(headers, CompanyHeader)).Some? then Lookup(headers, CompanyHeader)
        else CompanyIdFromExperience(p, headers, url);
      Some(AuthInfo(user.value, companyId))
  }

  /** The API-route variant: identical, with the request's own URL always available. */
  function VerifyUserFromRequest(env: Env, p: Whop, headers: map<string, string>, url: Url): Option<AuthInfo>
  {
    VerifyUserFromHeaders(env, p, headers, Some(url))
  }

  /** The user is the company's owner; a failed company lookup answers no. */
  predicate IsCompanyOwner(p: Whop, userId: string, companyId: string): (r: bool)
    ensures r <==> p.companyOwner(companyId) == Ok(Some(userId))
    ensures p.companyOwner(companyId).Fail? ==> !r
  {
    match p.companyOwner(companyId)
    case Ok(owner) => owner == Some(userId)
    case Fail => false
  }

  /** `k` is the first roster entry whose user is `userId`. */
  ghost predicate FirstMatchAt(entries: seq<RosterEntry>, userId: string, k: int)
  {
    && 0 <= k < |entries|
    && entries[k].user == Some(userId)
    && forall j :: 0 <= j < k ==> entries[j].user != Some(userId)
  }

  /**
   * The caller's roster role: the role of the FIRST roster entry for the user,
   * with an empty role, no entry, or a failed listing giving no role.
   */
  function AuthorizedUserRole(p: Whop, userId: string, companyId: string): (r: Option<string>)
    ensures p.roster(companyId).Fail? ==> r.None?
    ensures r.Some? ==> r.value != ""
    ensures p.roster(companyId).Ok? ==>
      var entries := p.roster(companyId).value;
      && (r.Some? <==> exists k :: FirstMatchAt(entries, userId, k) && Truthy(entries[k].role).Some?)
      && (r.Some? ==> exists k :: FirstMatchAt(entries, userId, k) && entries[k].role == r)
  {
    match p.roster(companyId)
    case Fail => None
    case Ok(entries) =>
      var k := FirstIndex(entries, (e: RosterEntry) => e.user == Some(userId));
      if k < |entries| then
        assert FirstMatchAt(entries, userId, k);
        Truthy(entries[k].role)
      else None
  }

  /** Team membership is having a roster role. */
  function IsTeamMember(p: Whop, userId: string, companyId: string): (r: bool)
    ensures r <==> (p.roster(companyId).Ok? &&
      exists k :: FirstMatchAt(p.roster(companyId).value, userId, k)
        && Truthy(p.roster(companyId).value[k].role).Some?)
  {
    AuthorizedUserRole(p, userId, companyId) != None
  }

  /**
   * Ban: cancel every membership of the user in the company, carrying on past
   * failed cancellations. Succeeds iff at least one cancellation succeeded;
   * a failed listing or an empty list gives false.
   */
  method BanUserFromCompany(p: Whop, userId: string, companyId: string)
    returns (banned: bool, attempted: seq<string>)
    ensures p.memberships(companyId, userId).Fail? ==> !banned && attempted == []
    ensures p.memberships(companyId, userId).Ok? ==>
      var ms := p.memberships(companyId, userId).value;
      && attempted == ms
      && (banned <==> exists i :: 0 <= i < |ms| && p.cancel(ms[i]))
  {
    attempted := [];
    banned := false;
    match p.memberships(companyId, userId)
    case Fail =>
    case Ok(ms) =>
      var i := 0;
      while i < |ms|
        invariant 0 <= i <= |ms|
        invariant attempted == ms[..i]
        invariant banned <==> exists j :: 0 <= j < i && p.cancel(ms[j])
      {
        var ok := p.cancel(ms[i]);
        attempted := attempted + [ms[i]];
        if ok {
          banned := true;
        }
        i := i + 1;
      }
  }

  /** The URL is consulted only when no header carries an experience id. */
  lemma UrlIgnoredWhenHeaderExperience(p: Whop, headers: map<string, string>, url1: Option<Url>, url2: Option<Url>)
    requires HeaderExperienceId(headers).Some?
    ensures CompanyIdFromExperience(p, headers, url1) == CompanyIdFromExperience(p, headers, url2)
  {
  }

  /** A `company_id` query parameter is returned as it is, whatever the platform would answer. */
  lemma DirectCompanyIdNeedsNoLookup(p1: Whop, p2: Whop, headers: map<string, string>, query: map<string, string>)
    requires HeaderExperienceId(headers).None?
    requires Truthy(Lookup(query, "experience")).None?
    requires Truthy(Lookup(query, "company_id")).Some?
    ensures CompanyIdFromExperience(p1, headers, Some(Parsed(query))) == Some(query["company_id"])
    ensures CompanyIdFromExperience(p2, headers, Some(Parsed(query))) == Some(query["company_id"])
  {
  }

  /** A failed experience lookup resolves no tenant, even when `company_id` is also given. */
  lemma FailedExperienceLookupGivesNoTenant(p: Whop, headers: map<string, string>, query: map<string, string>)
    requires HeaderExperienceId(headers).None?
    requires Truthy(Lookup(query, "experience")).Some?
    requires p.experienceCompany(query["experience"]).Fail?
    ensures CompanyIdFromExperience(p, headers, Some(Parsed(query))).None?
  {
  }

  /** The explicit company header decides the tenant: neither the URL nor the experience lookup matters. */
  lemma CompanyHeaderWins(env: Env, p1: Whop, p2: Whop, headers: map<string, string>, url1: Option<Url>, url2: Option<Url>)
    requires Truthy(Lookup(headers, CompanyHeader)).Some?
    requires p1.verifyToken == p2.verifyToken
    ensures VerifyUserFromHeaders(env, p1, headers, url1) == VerifyUserFromHeaders(env, p2, headers, url2)
    ensures VerifyUserFromHeaders(env, p1, headers, url1).Some? ==>
      VerifyUserFromHeaders(env, p1, headers, url1).value.companyId == Some(headers[CompanyHeader])
  {
  }

  /**
   * Only the first roster entry for the user counts: when it has no role, a
   * later entry for the same user with a role does not make them a team member.
   */
  lemma FirstRosterEntryDecides(p: Whop, userId: string, companyId: string, i: nat, j: nat)
    requires p.roster(companyId).Ok?
    requires i < j < |p.roster(companyId).value|
    requires FirstMatchAt(p.roster(companyId).value, userId, i)
    requires Truthy(p.roster(companyId).value[i].role).None?
    requires p.roster(companyId).value[j].user == Some(userId)
    ensures AuthorizedUserRole(p, userId, companyId).None?
    ensures !IsTeamMember(p, userId, companyId)
  {
  }
}
