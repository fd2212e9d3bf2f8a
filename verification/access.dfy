/**
 * The client's view of the role endpoint: whatever the server answers, the
 * client ends with one of the four roles, collapsing anything unexpected to
 * `none` and unauthorized.
 */
module Access {
  import opened Common
  import opened Platform
  import opened Identity
  import opened Roles

  /** What the client's request produced: a thrown error, or a response and its parsed body. */
  datatype FetchOutcome =
    | Threw
    | Responded(ok: bool, body: Option<RoleBody>)  // `None`: the body was not a JSON object

  /** The client's access state; a missing identifier is `None` (`null`). */
  datatype AccessState = AccessState(role: Role, isAuthorized: bool,
                                     userId: Option<JsonValue>, companyId: Option<JsonValue>)

  /** The state every failure collapses to. */
  const Denied := AccessState(NoRole, false, None, None)

  /** Read a role from its wire name; anything else is not a role. */
  function ParseRole(v: JsonValue): (r: Option<Role>)
    ensures r.None? ==> forall role :: v != Str(RoleName(role))
    ensures r.Some? ==> v == Str(RoleName(r.value))
  {
    match v
    case Str(s) =>
      if s == "owner" then Some(Owner)
      else if s == "admin" then Some(Admin)
      else if s == "member" then Some(Member)
      else if s == "none" then Some(NoRole)
      else None
    case _ => None
  }

  /** `value || null`. */
  function OrNull(v: JsonValue): Option<JsonValue>
  {
    if JsonTruthy(v) then Some(v) else None
  }

  /** A status code `fetch` reports as `ok`. */
  predicate IsOk(status: nat)
  {
    200 <= status < 300
  }

  /**
   * Fetch the caller's access role. No experience id means no request and
   * `Denied`; so do a thrown error, a non-OK response, an unreadable body and
   * a role outside the four known ones. Otherwise the role passes through,
   * `isAuthorized` is coerced to a boolean and falsy identifiers become null.
   */
  function FetchAccessRole(experienceId: Option<string>, fetch: FetchOutcome): (s: AccessState)
    ensures Truthy(experienceId).None? || fetch.Threw? ==> s == Denied
    ensures fetch.Responded? && (!fetch.ok || fetch.body.None?) ==> s == Denied
    ensures s != Denied ==>
      && Truthy(experienceId).Some? && fetch.Responded? && fetch.ok && fetch.body.Some?
      && fetch.body.value.role == Str(RoleName(s.role))
    ensures (Truthy(experienceId).Some? && fetch.Responded? && fetch.ok && fetch.body.Some? &&
             ParseRole(fetch.body.value.role).Some?) ==>
      var body := fetch.body.value;
      && s.role == ParseRole(body.role).value
      && (s.isAuthorized <==> JsonTruthy(body.isAuthorized))
      && (s.userId.Some? <==> JsonTruthy(body.userId))
      && (s.userId.Some? ==> s.userId.value == body.userId)
      && (s.companyId.Some? <==> JsonTruthy(body.companyId))
      && (s.companyId.Some? ==> s.companyId.value == body.companyId)
    ensures s.userId.Some? ==> JsonTruthy(s.userId.value)
    ensures s.companyId.Some? ==> JsonTruthy(s.companyId.value)
  {
    if Truthy(experienceId).None? then Denied
    else
      match fetch
      case Threw => Denied
      case Responded(ok, body) =>
        if !ok || body.None? then Denied
        else
          var data := body.value;
          var role := ParseRole(data.role);
          if role.None? then Denied
          else AccessState(role.value, JsonTruthy(data.isAuthorized), OrNull(data.userId), OrNull(data.companyId))
  }

  /** Without an experience id no request is made: the outcome is not looked at. */
  lemma NoExperienceNoRequest(experienceId: Option<string>, f1: FetchOutcome, f2: FetchOutcome)
    requires Truthy(experienceId).None?
    ensures FetchAccessRole(experienceId, f1) == FetchAccessRole(experienceId, f2) == Denied
  {
  }

  /** An unknown role collapses to `none`, unauthorized, with both identifiers dropped. */
  lemma UnknownRoleCollapses(experienceId: Option<string>, body: RoleBody)
    requires Truthy(experienceId).Some?
    requires forall role :: body.role != Str(RoleName(role))
    ensures FetchAccessRole(experienceId, Responded(true, Some(body))) == Denied
  {
  }

  /**
   * End to end: whatever the role endpoint answers, the client ends with the
   * same role and authorization, and with the caller's ids exactly when the
   * server echoed them.
   */
  lemma ClientSeesServerRole(auth: Option<AuthInfo>, p: Whop, experienceId: Option<string>)
    requires Truthy(experienceId).Some?
    requires auth.Some? ==> auth.value.userId != ""
    ensures
      var reply := RoleRoute(auth, p);
      var s := FetchAccessRole(experienceId, Responded(IsOk(reply.status), Some(ToJson(reply))));
      && s.role == reply.role
      && s.isAuthorized == reply.isAuthorized
      && (s.userId.Some? <==> auth.Some?)
      && (auth.Some? ==> s.userId == Some(Str(auth.value.userId)))
      && (s.companyId.Some? <==> reply.isAuthorized)
      && (reply.isAuthorized ==> s.companyId == Some(Str(auth.value.companyId.value)))
  {
  }
}
