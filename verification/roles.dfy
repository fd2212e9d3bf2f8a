/**
 * The role endpoint: classify an authenticated caller as owner, admin,
 * member or none, and decide whether they may use the application.
 */
module Roles {
  import opened Common
  import opened Platform
  import opened Identity

  /** The caller's access role, from most to least privileged. */
  datatype Role = Owner | Admin | Member | NoRole

  /** The role's wire name. */
  function RoleName(role: Role): string
  {
    match role
    case Owner => "owner"
    case Admin => "admin"
    case Member => "member"
    case NoRole => "none"
  }

  /** The privilege rank of a role; precedence is "the highest rank wins". */
  function Rank(role: Role): nat
  {
    match role
    case Owner => 3
    case Admin => 2
    case Member => 1
    case NoRole => 0
  }

  /** The more privileged of two roles. */
  function Max(a: Role, b: Role): Role
  {
    if Rank(a) >= Rank(b) then a else b
  }

  /** The role a roster entry grants on its own: "owner" is a co-owner, any other role an admin. */
  function RosterGrant(rosterRole: Option<string>): Role
  {
    if rosterRole == Some("owner") then Owner
    else if Truthy(rosterRole).Some? then Admin
    else Member
  }

  /**
   * Role precedence for an authenticated caller of a resolved tenant:
   * actual owner, then roster role "owner", then any other roster role (admin),
   * then plain member.
   */
  function DecideRole(isOwner: bool, rosterRole: Option<string>): (role: Role)
    ensures isOwner ==> role == Owner
    ensures role == Owner <==> isOwner || rosterRole == Some("owner")
    ensures role == Admin <==> !isOwner && Truthy(rosterRole).Some? && rosterRole != Some("owner")
    ensures role == Member <==> !isOwner && Truthy(rosterRole).None?
    ensures role != NoRole
  {
    if isOwner then Owner
    else if rosterRole == Some("owner") then Owner
    else if Truthy(rosterRole).Some? then Admin
    else Member
  }

  /** The precedence chain is the same as taking the most privileged of what each source grants. */
  lemma DecideRoleIsMostPrivileged(isOwner: bool, rosterRole: Option<string>)
    ensures DecideRole(isOwner, rosterRole) == Max(if isOwner then Owner else Member, RosterGrant(rosterRole))
  {
  }

  /** The role endpoint's answer: status, role, authorization, and the echoed identifiers. */
  datatype RoleReply = RoleReply(status: nat, role: Role, isAuthorized: bool,
                                 userId: Option<string>, companyId: Option<string>)

  /**
   * The role endpoint, given the verifier's result. Unauthenticated: 401 and
   * `none`. Authenticated without a tenant: `none`, not authorized, user echoed
   * and company null. Otherwise authorized, with the role from `DecideRole`.
   */
  function RoleRoute(auth: Option<AuthInfo>, p: Whop): (r: RoleReply)
    ensures r.status == 401 <==> auth.None?
    ensures r.status != 401 ==> r.status == 200
    ensures auth.None? ==> r == RoleReply(401, NoRole, false, None, None)
    ensures auth.Some? && Truthy(auth.value.companyId).None? ==>
      r == RoleReply(200, NoRole, false, Some(auth.value.userId), None)
    ensures r.isAuthorized <==> auth.Some? && Truthy(auth.value.companyId).Some?
    ensures r.isAuthorized ==> r.role != NoRole && r.companyId == auth.value.companyId
    ensures r.isAuthorized ==> r.userId == Some(auth.value.userId)
    ensures r.isAuthorized && IsCompanyOwner(p, auth.value.userId, auth.value.companyId.value) ==>
      r.role == Owner
    ensures r.isAuthorized ==>
      r.role == DecideRole(IsCompanyOwner(p, auth.value.userId, auth.value.companyId.value),
                           AuthorizedUserRole(p, auth.value.userId, auth.value.companyId.value))
  {
    match auth
    case None => RoleReply(401, NoRole, false, None, None)
    case Some(AuthInfo(userId, companyId)) =>
      if Truthy(companyId).None? then RoleReply(200, NoRole, false, Some(userId), None)
      else
        var isOwner := IsCompanyOwner(p, userId, companyId.value);
        var rosterRole := AuthorizedUserRole(p, userId, companyId.value);
        RoleReply(200, DecideRole(isOwner, rosterRole), true, Some(userId), companyId)
  }

  /** A roster role of exactly "owner" makes a co-owner, any other role an admin. */
  lemma RosterRoleClassification(p: Whop, userId: string, companyId: string)
    requires companyId != ""
    requires !IsCompanyOwner(p, userId, companyId)
    ensures AuthorizedUserRole(p, userId, companyId) == Some("owner") ==>
      RoleRoute(Some(AuthInfo(userId, Some(companyId))), p).role == Owner
    ensures AuthorizedUserRole(p, userId, companyId).Some? && AuthorizedUserRole(p, userId, companyId) != Some("owner") ==>
      RoleRoute(Some(AuthInfo(userId, Some(companyId))), p).role == Admin
    ensures AuthorizedUserRole(p, userId, companyId).None? ==>
      RoleRoute(Some(AuthInfo(userId, Some(companyId))), p).role == Member
  {
  }

  /** The JSON body the endpoint sends for each of its three reply shapes. */
  function ToJson(r: RoleReply): (body: RoleBody)
    ensures body.role == Str(RoleName(r.role)) && body.isAuthorized == Bool(r.isAuthorized)
    ensures r.status == 401 ==> body.userId == Absent && body.companyId == Absent
    ensures r.status != 401 ==> body.userId == (if r.userId.Some? then Str(r.userId.value) else Null)
    ensures r.status != 401 ==> body.companyId == (if r.companyId.Some? then Str(r.companyId.value) else Null)
  {
    var ident := (x: Option<string>) => if x.Some? then Str(x.value) else Null;
    if r.status == 401 then RoleBody(Str(RoleName(r.role)), Bool(r.isAuthorized), Absent, Absent)
    else RoleBody(Str(RoleName(r.role)), Bool(r.isAuthorized), ident(r.userId), ident(r.companyId))
  }

  /** The role endpoint's JSON body as the client sees it. */
  datatype RoleBody = RoleBody(role: JsonValue, isAuthorized: JsonValue, userId: JsonValue, companyId: JsonValue)
}
