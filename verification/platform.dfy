/**
 * The remote community platform and the process environment, as oracles.
 * Every SDK call the application makes is a total function here that
 * either returns a value or fails; the model never looks inside them.
 */
module Platform {
  import opened Common

  /** One entry of a company's team roster ("authorized users"). */
  datatype RosterEntry = RosterEntry(user: Option<string>, role: Option<string>)

  /** The environment variables the SDK client is built from. */
  datatype Env = Env(apiKey: Option<string>, appId: Option<string>)

  /**
   * The platform's answers:
   * - `verifyToken(token, appId)`: the token payload's user id, if the payload has one;
   * - `experienceCompany(experienceId)`: the id of the experience's company, if it has one;
   * - `companyOwner(companyId)`: the id of the company's owner user, if it has one;
   * - `roster(companyId)`: the company's authorized users, in listing order;
   * - `memberships(companyId, userId)`: ids of the user's memberships in the company;
   * - `cancel(membershipId)`: whether an immediate cancellation succeeded;
   * - `username(userId)`: the user's username.
   */
  datatype Whop = Whop(
    verifyToken: (string, string) -> Remote<Option<string>>,
    experienceCompany: string -> Remote<Option<string>>,
    companyOwner: string -> Remote<Option<string>>,
    roster: string -> Remote<seq<RosterEntry>>,
    memberships: (string, string) -> Remote<seq<string>>,
    cancel: string -> bool,
    username: string -> Remote<string>)

  /** The SDK client can be built only when an API key is configured. */
  predicate ClientAvailable(env: Env)
  {
    Truthy(env.apiKey).Some?
  }
}
