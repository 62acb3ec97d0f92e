/** The read side of the API views: for each resource, the rows a list
    request returns and the answer to a detail request, over one snapshot of
    the database. Pagination and the shape of the response body are not
    modelled; a list is the set of row ids in scope. */
module Listing {
  import opened Collections
  import opened Models
  import opened Permissions
  import Ownership

  /** The status a handler answers with: 200/201/204 are all `Ok`; 401 is
      `Unauthenticated`. */
  datatype Status = Ok | BadRequest | Unauthenticated | Forbidden | NotFound

  /** A permission class that refuses: 401 for an anonymous requester, 403
      for an authenticated one. */
  function Denied(p: Principal): (s: Status)
    ensures s == Unauthenticated <==> p.Anonymous?
    ensures s == Forbidden <==> p.Known?
  {
    if p.Anonymous? then Unauthenticated else Forbidden
  }

  // ----- Users -----

  /** `user_list`: an admin sees every user, an agent themself and every
      farmer enrolled (actively or not) in a farm they manage, a farmer only
      themself; any other role is refused. */
  function UserList(db: Db, p: Principal): (r: Result<set<Id>, Status>)
    requires RequesterIn(db.users, p)
    ensures p.Anonymous? ==> r == Failure(Unauthenticated)
    ensures p.Known? && p.user.role == Unassigned ==> r == Failure(Forbidden)
    ensures r.Success? ==> p.Known? && r.value <= db.users.Keys && p.user.id in r.value
    ensures r.Success? && p.user.role == Admin ==> r.value == db.users.Keys
    ensures r.Success? && p.user.role == Farmer ==> r.value == {p.user.id}
    ensures r.Success? && p.user.role == Agent ==>
      forall id :: id in r.value && id != p.user.id ==>
        db.users[id].role == Farmer &&
        exists k :: k in db.enrollments && db.enrollments[k].user == id &&
          db.enrollments[k].farm in Ownership.FarmsManaged(db.farms, p.user)
    ensures r.Failure? <==> !(p.Known? && p.user.role != Unassigned)
  {
    if !IsAuthenticated(p) then Failure(Denied(p))
    else
      var u := p.user;
      match u.role
      case Admin => Success(db.users.Keys)
      case Agent =>
        var managed := Ownership.FarmsManaged(db.farms, u);
        Success({u.id} + set id | id in db.users && db.users[id].role == Farmer &&
                   exists k :: k in db.enrollments && db.enrollments[k].user == id && db.enrollments[k].farm in managed)
      case Farmer => Success({u.id})
      case Unassigned => Failure(Forbidden)
  }

  /** An agent's user list reaches exactly the farmers enrolled in the
      agent's farms: no other agent, no admin. */
  lemma AgentSeesOnlyOwnFarmers(db: Db, p: Principal, id: Id)
    requires DbValid(db) && RequesterIn(db.users, p)
    requires p.Known? && p.user.role == Agent
    requires id in db.users && id != p.user.id
    ensures id in UserList(db, p).value <==>
      exists k :: k in db.enrollments && db.enrollments[k].user == id && db.farms[db.enrollments[k].farm].agent == p.user.id
  {
    if exists k :: k in db.enrollments && db.enrollments[k].user == id && db.farms[db.enrollments[k].farm].agent == p.user.id {
      var k :| k in db.enrollments && db.enrollments[k].user == id && db.farms[db.enrollments[k].farm].agent == p.user.id;
      assert db.enrollments[k].farm in Ownership.FarmsManaged(db.farms, p.user);
    }
  }

  // ----- Farms -----

  function FarmList(db: Db, p: Principal): (r: Result<set<Id>, Status>)
    ensures p.Anonymous? ==> r == Failure(Unauthenticated)
    ensures r.Failure? <==> !(p.Known? && p.user.role != Unassigned)
    ensures r.Success? ==> r.value <= db.farms.Keys
    ensures r.Success? && p.user.role == Admin ==> r.value == db.farms.Keys
    ensures r.Success? && p.user.role == Agent ==> r.value == Ownership.FarmsManaged(db.farms, p.user)
    ensures r.Success? && p.user.role == Farmer ==> |r.value| <= 1
  {
    if !PostAdminOrAgentElseAuth(p, Get) then Failure(Denied(p))
    else
      var u := p.user;
      match u.role
      case Admin => Success(db.farms.Keys)
      case Agent => Success(Ownership.FarmsManaged(db.farms, u))
      case Farmer =>
        (match Ownership.ActiveFarmForFarmer(db.enrollments, u)
         case Some(f) => Success(if f in db.farms then {f} else {})
         case None => Success({}))
      case Unassigned => Failure(Forbidden)
  }

  /** `farm_detail` on GET. */
  function FarmDetail(db: Db, p: Principal, id: Id): (s: Status)
    requires FarmsOk(db.farms, db.users)
    ensures p.Anonymous? ==> s == Unauthenticated
    ensures p.Known? && id !in db.farms ==> s == NotFound
    ensures s == Ok <==> (
      && p.Known? && id in db.farms
      && (|| p.user.role == Admin
          || (p.user.role == Agent && db.farms[id].agent == p.user.id)
          || (p.user.role == Farmer && Ownership.ActiveFarmForFarmer(db.enrollments, p.user) == Some(id))))
  {
    if !AuthenticatedOrReadOnly(p, Get) then Denied(p)
    else if id !in db.farms then NotFound
    else
      var u := p.user;
      var farm := db.farms[id];
      var active := Ownership.ActiveFarmForFarmer(db.enrollments, u);
      if || Ownership.IsAdmin(u)
         || (Ownership.IsAgent(u) && Ownership.AgentOwnsFarm(u, farm))
         || (Ownership.IsFarmer(u) && active.Some? && active.value == farm.id)
      then Ok
      else Forbidden
  }

  /** A farm is in the requester's list exactly when its detail page opens
      for them; a farmer sees at most their active farm. */
  lemma FarmListMatchesDetail(db: Db, p: Principal, id: Id)
    requires DbValid(db)
    requires id in db.farms
    ensures FarmList(db, p).Success? && id in FarmList(db, p).value <==> FarmDetail(db, p, id) == Ok
  {
  }

  // ----- Cows -----

  function CowList(db: Db, p: Principal): (r: Result<set<Id>, Status>)
    ensures p.Anonymous? ==> r == Failure(Unauthenticated)
    ensures r.Failure? <==> !(p.Known? && p.user.role != Unassigned)
    ensures r.Success? ==> r.value <= db.cows.Keys
    ensures r.Success? && p.user.role == Farmer ==> forall id :: id in r.value <==> id in db.cows && db.cows[id].farmer == p.user.id
    ensures r.Success? && p.user.role == Admin ==> r.value == db.cows.Keys
  {
    if !AuthenticatedOrReadOnly(p, Get) then Failure(Denied(p))
    else
      var u := p.user;
      match u.role
      case Farmer => Success(set id | id in db.cows && db.cows[id].farmer == u.id)
      case Agent =>
        var managed := Ownership.FarmsManaged(db.farms, u);
        Success(set id | id in db.cows && db.cows[id].farm in managed)
      case Admin => Success(db.cows.Keys)
      case Unassigned => Failure(Forbidden)
  }

  /** `cow_detail` on GET: the cow access rule. */
  function CowDetail(db: Db, p: Principal, id: Id): (s: Status)
    requires DbValid(db)
    ensures p.Anonymous? ==> s == Unauthenticated
    ensures p.Known? && id !in db.cows ==> s == NotFound
    ensures s == Ok <==> p.Known? && id in db.cows && Ownership.CowAccessOk(p.user, db.cows[id], db.farms[db.cows[id].farm])
  {
    if !AuthenticatedOrReadOnly(p, Get) then Denied(p)
    else if id !in db.cows then NotFound
    else
      var cow := db.cows[id];
      if Ownership.CowAccessOk(p.user, cow, db.farms[cow.farm]) then Ok else Forbidden
  }

  lemma CowListMatchesDetail(db: Db, p: Principal, id: Id)
    requires DbValid(db)
    requires id in db.cows
    ensures CowList(db, p).Success? && id in CowList(db, p).value <==> CowDetail(db, p, id) == Ok
  {
  }

  // ----- Milk records -----

  function MilkList(db: Db, p: Principal): (r: Result<set<Id>, Status>)
    requires MilkOk(db.milk, db.cows, db.users)
    ensures p.Anonymous? ==> r == Failure(Unauthenticated)
    ensures r.Failure? <==> !(p.Known? && p.user.role != Unassigned)
    ensures r.Success? ==> r.value <= db.milk.Keys
    ensures r.Success? && p.user.role == Farmer ==> forall id :: id in r.value <==> id in db.milk && db.milk[id].recordedBy == p.user.id
    ensures r.Success? && p.user.role == Admin ==> r.value == db.milk.Keys
  {
    if !PostFarmerOrAdminElseAuth(p, Get) then Failure(Denied(p))
    else
      var u := p.user;
      match u.role
      case Farmer => Success(set id | id in db.milk && db.milk[id].recordedBy == u.id)
      case Agent =>
        var managed := Ownership.FarmsManaged(db.farms, u);
        Success(set id | id in db.milk && db.cows[db.milk[id].cow].farm in managed)
      case Admin => Success(db.milk.Keys)
      case Unassigned => Failure(Forbidden)
  }

  /** `milkproduction_detail` on GET: the record access rule. */
  function MilkDetail(db: Db, p: Principal, id: Id): (s: Status)
    requires DbValid(db)
    ensures p.Anonymous? ==> s == Unauthenticated
    ensures p.Known? && id !in db.milk ==> s == NotFound
    ensures s == Ok <==> (
      && p.Known? && id in db.milk
      && Ownership.RecordAccessOk(p.user, db.cows[db.milk[id].cow], db.farms[db.cows[db.milk[id].cow].farm], db.milk[id].recordedBy))
  {
    if !AuthenticatedOrReadOnly(p, Get) then Denied(p)
    else if id !in db.milk then NotFound
    else
      var rec := db.milk[id];
      var cow := db.cows[rec.cow];
      if Ownership.RecordAccessOk(p.user, cow, db.farms[cow.farm], rec.recordedBy) then Ok else Forbidden
  }

  lemma MilkListMatchesDetail(db: Db, p: Principal, id: Id)
    requires DbValid(db)
    requires id in db.milk
    ensures MilkList(db, p).Success? && id in MilkList(db, p).value <==> MilkDetail(db, p, id) == Ok
  {
  }

  // ----- Activities -----

  function ActivityList(db: Db, p: Principal): (r: Result<set<Id>, Status>)
    requires ActivitiesOk(db.activities, db.cows, db.users)
    ensures p.Anonymous? ==> r == Failure(Unauthenticated)
    ensures r.Failure? <==> !(p.Known? && p.user.role != Unassigned)
    ensures r.Success? ==> r.value <= db.activities.Keys
    ensures r.Success? && p.user.role == Farmer ==>
      forall id :: id in r.value <==> id in db.activities && db.activities[id].recordedBy == p.user.id
    ensures r.Success? && p.user.role == Admin ==> r.value == db.activities.Keys
  {
    if !PostFarmerOrAdminElseAuth(p, Get) then Failure(Denied(p))
    else
      var u := p.user;
      match u.role
      case Farmer => Success(set id | id in db.activities && db.activities[id].recordedBy == u.id)
      case Agent =>
        var managed := Ownership.FarmsManaged(db.farms, u);
        Success(set id | id in db.activities && db.cows[db.activities[id].cow].farm in managed)
      case Admin => Success(db.activities.Keys)
      case Unassigned => Failure(Forbidden)
  }

  /** `activity_detail` on GET: the record access rule. */
  function ActivityDetail(db: Db, p: Principal, id: Id): (s: Status)
    requires DbValid(db)
    ensures p.Anonymous? ==> s == Unauthenticated
    ensures p.Known? && id !in db.activities ==> s == NotFound
    ensures s == Ok <==> (
      && p.Known? && id in db.activities
      && Ownership.RecordAccessOk(p.user, db.cows[db.activities[id].cow],
           db.farms[db.cows[db.activities[id].cow].farm], db.activities[id].recordedBy))
  {
    if !AuthenticatedOrReadOnly(p, Get) then Denied(p)
    else if id !in db.activities then NotFound
    else
      var act := db.activities[id];
      var cow := db.cows[act.cow];
      if Ownership.RecordAccessOk(p.user, cow, db.farms[cow.farm], act.recordedBy) then Ok else Forbidden
  }

  lemma ActivityListMatchesDetail(db: Db, p: Principal, id: Id)
    requires DbValid(db)
    requires id in db.activities
    ensures ActivityList(db, p).Success? && id in ActivityList(db, p).value <==> ActivityDetail(db, p, id) == Ok
  {
  }

  // ----- Enrollments -----

  function EnrollmentList(db: Db, p: Principal): (r: Result<set<Id>, Status>)
    requires EnrollmentsOk(db.enrollments, db.users, db.farms)
    ensures p.Anonymous? ==> r == Failure(Unauthenticated)
    ensures r.Failure? <==> !(p.Known? && p.user.role != Unassigned)
    ensures r.Success? ==> r.value <= db.enrollments.Keys
    ensures r.Success? && p.user.role == Farmer ==>
      forall id :: id in r.value <==> id in db.enrollments && db.enrollments[id].user == p.user.id
    ensures r.Success? && p.user.role == Agent ==>
      forall id :: id in r.value <==> id in db.enrollments && db.farms[db.enrollments[id].farm].agent == p.user.id
    ensures r.Success? && p.user.role == Admin ==> r.value == db.enrollments.Keys
  {
    if !PostAdminOrAgentElseAuth(p, Get) then Failure(Denied(p))
    else
      var u := p.user;
      match u.role
      case Admin => Success(db.enrollments.Keys)
      case Agent => Success(set id | id in db.enrollments && db.farms[db.enrollments[id].farm].agent == u.id)
      case Farmer => Success(set id | id in db.enrollments && db.enrollments[id].user == u.id)
      case Unassigned => Failure(Forbidden)
  }

  /** `enrollment_detail` on GET. */
  function EnrollmentDetail(db: Db, p: Principal, id: Id): (s: Status)
    requires EnrollmentsOk(db.enrollments, db.users, db.farms)
    ensures p.Anonymous? ==> s == Unauthenticated
    ensures p.Known? && id !in db.enrollments ==> s == NotFound
    ensures s == Ok <==> (
      && p.Known? && id in db.enrollments
      && (|| p.user.role == Admin
          || (p.user.role == Agent && db.farms[db.enrollments[id].farm].agent == p.user.id)
          || (p.user.role == Farmer && db.enrollments[id].user == p.user.id)))
  {
    if !AuthenticatedOrReadOnly(p, Get) then Denied(p)
    else if id !in db.enrollments then NotFound
    else
      var u := p.user;
      var e := db.enrollments[id];
      if || Ownership.IsAdmin(u)
         || (Ownership.IsAgent(u) && Ownership.AgentOwnsFarm(u, db.farms[e.farm]))
         || (Ownership.IsFarmer(u) && e.user == u.id)
      then Ok
      else Forbidden
  }

  lemma EnrollmentListMatchesDetail(db: Db, p: Principal, id: Id)
    requires DbValid(db)
    requires id in db.enrollments
    ensures EnrollmentList(db, p).Success? && id in EnrollmentList(db, p).value <==> EnrollmentDetail(db, p, id) == Ok
  {
  }
}
