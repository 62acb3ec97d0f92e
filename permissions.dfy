/** The request-level permission classes. Each decides, from who is asking
    and with which HTTP method, whether a view may run at all. */
module Permissions {
  import opened Models

  datatype HttpMethod = Get | Head | Options | Post | Put | Patch | Delete

  /** The methods that only read. */
  predicate IsSafe(m: HttpMethod) {
    m == Get || m == Head || m == Options
  }

  /** The requester: an anonymous visitor, or a user authenticated by a token. */
  datatype Principal = Anonymous | Known(user: User)

  /** An authenticated requester is a row of the user table. */
  ghost predicate RequesterIn(users: map<Id, User>, p: Principal) {
    p.Known? ==> p.user.id in users && users[p.user.id] == p.user
  }

  /** `IsAuthenticated`, the framework's own class. */
  predicate IsAuthenticated(p: Principal) {
    p.Known?
  }

  // The three single-role classes read the role of an authenticated user;
  // the views only ever list them after IsAuthenticated.

  function IsSuperAdmin(u: User): (granted: bool)
    ensures granted <==> u.role == Admin
  {
    u.role == Admin
  }

  function IsAgent(u: User): (granted: bool)
    ensures granted <==> u.role == Agent
  {
    u.role == Agent
  }

  function IsFarmer(u: User): (granted: bool)
    ensures granted <==> u.role == Farmer
  {
    u.role == Farmer
  }

  function IsAdminOrAgent(p: Principal): (granted: bool)
    ensures granted <==> p.Known? && (p.user.role == Admin || p.user.role == Agent)
    ensures granted ==> p.user.role != Farmer
  {
    p.Known? && p.user.role in {Admin, Agent}
  }

  function IsFarmerOrAdmin(p: Principal): (granted: bool)
    ensures granted <==> p.Known? && (p.user.role == Farmer || p.user.role == Admin)
    ensures granted ==> p.user.role != Agent
  {
    p.Known? && p.user.role in {Farmer, Admin}
  }

  /** Despite its name, anonymous requests are refused for every method,
      the safe ones included. */
  function AuthenticatedOrReadOnly(p: Principal, m: HttpMethod): (granted: bool)
    ensures granted <==> IsAuthenticated(p)
    ensures p.Anonymous? && IsSafe(m) ==> !granted
  {
    p.Known?
  }

  function PostAdminOrAgentElseAuth(p: Principal, m: HttpMethod): (granted: bool)
    ensures p.Anonymous? ==> !granted
    ensures p.Known? && IsSafe(m) ==> granted
    ensures p.Known? && !IsSafe(m) ==> (granted <==> p.user.role == Admin || p.user.role == Agent)
  {
    if !p.Known? then false
    else if IsSafe(m) then true
    else p.user.role in {Admin, Agent}
  }

  /** Same shape as PostAdminOrAgentElseAuth, but writes need a farmer or an
      admin, so an agent can never create milk records or activities. */
  function PostFarmerOrAdminElseAuth(p: Principal, m: HttpMethod): (granted: bool)
    ensures p.Anonymous? ==> !granted
    ensures p.Known? && IsSafe(m) ==> granted
    ensures p.Known? && !IsSafe(m) ==> (granted <==> p.user.role == Farmer || p.user.role == Admin)
    ensures p.Known? && p.user.role == Agent && !IsSafe(m) ==> !granted
  {
    if !p.Known? then false
    else if IsSafe(m) then true
    else p.user.role in {Farmer, Admin}
  }

  /** The two write-splitting classes agree with AuthenticatedOrReadOnly on
      reads and with the role-pair classes on writes; only an admin passes
      both on a write. */
  lemma WriteGatesRefineAuthentication(p: Principal, m: HttpMethod)
    ensures PostAdminOrAgentElseAuth(p, m) ==> AuthenticatedOrReadOnly(p, m)
    ensures PostFarmerOrAdminElseAuth(p, m) ==> AuthenticatedOrReadOnly(p, m)
    ensures IsSafe(m) ==> PostAdminOrAgentElseAuth(p, m) == AuthenticatedOrReadOnly(p, m)
    ensures IsSafe(m) ==> PostFarmerOrAdminElseAuth(p, m) == AuthenticatedOrReadOnly(p, m)
    ensures !IsSafe(m) ==> PostAdminOrAgentElseAuth(p, m) == IsAdminOrAgent(p)
    ensures !IsSafe(m) ==> PostFarmerOrAdminElseAuth(p, m) == IsFarmerOrAdmin(p)
    ensures !IsSafe(m) ==> (PostAdminOrAgentElseAuth(p, m) && PostFarmerOrAdminElseAuth(p, m) <==> p.Known? && p.user.role == Admin)
  {
  }
}
