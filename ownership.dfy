/** The ownership resolver of the API views: role tests, the farms an agent
    manages, a farmer's active farm, and the two per-object access rules
    (one for cows, one for milk records and activities). */
module Ownership {
  import opened Collections
  import opened Models

  predicate IsAdmin(u: User) { u.role == Admin }
  predicate IsAgent(u: User) { u.role == Agent }
  predicate IsFarmer(u: User) { u.role == Farmer }

  /** `_farms_managed`: the farms whose agent is `u`. */
  function FarmsManaged(farms: map<Id, Farm>, u: User): (managed: set<Id>)
    ensures managed <= farms.Keys
    ensures forall id :: id in managed <==> id in farms && AgentOwnsFarm(u, farms[id])
  {
    set id | id in farms && farms[id].agent == u.id
  }

  /** In a consistent database only agents manage farms. */
  lemma OnlyAgentsManageFarms(db: Db, u: User)
    requires DbValid(db)
    requires u.id in db.users && db.users[u.id] == u
    requires u.role != Agent
    ensures FarmsManaged(db.farms, u) == {}
  {
    forall id | id in db.farms ensures db.farms[id].agent != u.id {
      assert db.users[db.farms[id].agent].role == Agent;
    }
  }

  /** `_agent_owns_farm`. */
  predicate AgentOwnsFarm(agent: User, farm: Farm) {
    farm.agent == agent.id
  }

  predicate ActiveFor(e: Enrollment, user: Id) {
    e.user == user && e.isActive
  }

  /** `k` is an active enrollment of `user` and no active enrollment of
      `user` is more recent. */
  ghost predicate IsLatestActive(enrollments: map<Id, Enrollment>, user: Id, k: Id) {
    && k in enrollments
    && ActiveFor(enrollments[k], user)
    && forall j :: j in enrollments && ActiveFor(enrollments[j], user) ==>
         enrollments[j].enrolledAt <= enrollments[k].enrolledAt
  }

  /** The active enrollment of `user` with the greatest `enrolled_at`. The
      database breaks ties between equal timestamps as it likes; this scan
      keeps the row with the greatest id. */
  function LatestActiveEnrollment(enrollments: map<Id, Enrollment>, user: Id): (r: Option<Id>)
    ensures r.Some? ==> IsLatestActive(enrollments, user, r.value)
    ensures r.None? <==> forall k :: k in enrollments ==> !ActiveFor(enrollments[k], user)
    decreases |enrollments|
  {
    if |enrollments| == 0 then None
    else
      var k := MinKey(enrollments.Keys);
      var rest := enrollments - {k};
      assert rest.Keys == enrollments.Keys - {k};
      var best := LatestActiveEnrollment(rest, user);
      assert forall j :: j in enrollments ==> j == k || (j in rest && rest[j] == enrollments[j]);
      if !ActiveFor(enrollments[k], user) then best
      else if best.Some? && enrollments[k].enrolledAt <= rest[best.value].enrolledAt then best
      else Some(k)
  }

  /** `_active_farm_for_farmer`: none for a non-farmer; otherwise the farm of
      the latest active enrollment, or none when there is no active
      enrollment (the `user.farm` fallback is always none, since a user has
      no farm attribute). */
  function ActiveFarmForFarmer(enrollments: map<Id, Enrollment>, u: User): (farm: Option<Id>)
    ensures !IsFarmer(u) ==> farm.None?
    ensures IsFarmer(u) ==> (farm.None? <==> forall k :: k in enrollments ==> !ActiveFor(enrollments[k], u.id))
  {
    if !IsFarmer(u) then None
    else
      match LatestActiveEnrollment(enrollments, u.id)
      case Some(k) => Some(enrollments[k].farm)
      case None => None
  }

  /** The active farm is the farm of the farmer's most recent active enrollment. */
  lemma ActiveFarmIsLatest(enrollments: map<Id, Enrollment>, u: User)
    ensures var farm := ActiveFarmForFarmer(enrollments, u);
      farm.Some? ==> exists k :: IsLatestActive(enrollments, u.id, k) && enrollments[k].farm == farm.value
  {
    if IsFarmer(u) {
      var r := LatestActiveEnrollment(enrollments, u.id);
      if r.Some? {
        assert IsLatestActive(enrollments, u.id, r.value);
      }
    }
  }

  /** In a consistent database a farmer's active farm exists. */
  lemma ActiveFarmExists(db: Db, u: User)
    requires DbValid(db)
    ensures ActiveFarmForFarmer(db.enrollments, u).Some? ==> ActiveFarmForFarmer(db.enrollments, u).value in db.farms
  {
    ActiveFarmIsLatest(db.enrollments, u);
  }

  /** `_cow_access_ok` (`farm` is the cow's farm): every admin; an agent iff
      the agent owns the cow's farm; a farmer iff the cow is theirs; nobody
      else. */
  function CowAccessOk(u: User, cow: Cow, farm: Farm): (ok: bool)
    requires farm.id == cow.farm
    ensures IsAdmin(u) ==> ok
    ensures IsAgent(u) ==> (ok <==> farm.agent == u.id)
    ensures IsFarmer(u) ==> (ok <==> cow.farmer == u.id)
    ensures u.role == Unassigned ==> !ok
  {
    || IsAdmin(u)
    || (IsAgent(u) && AgentOwnsFarm(u, farm))
    || (IsFarmer(u) && cow.farmer == u.id)
  }

  /** `_record_access_ok` for a milk record or activity on `cow` recorded by
      `recorder`: every admin; an agent iff the agent owns the cow's farm; a
      farmer iff the farmer is the recorder, whoever owns the cow; nobody else. */
  function RecordAccessOk(u: User, cow: Cow, farm: Farm, recorder: Id): (ok: bool)
    requires farm.id == cow.farm
    ensures IsAdmin(u) ==> ok
    ensures IsAgent(u) ==> (ok <==> farm.agent == u.id)
    ensures IsFarmer(u) ==> (ok <==> recorder == u.id)
    ensures u.role == Unassigned ==> !ok
  {
    if IsAdmin(u) then true
    else if IsAgent(u) then AgentOwnsFarm(u, farm)
    else if IsFarmer(u) then recorder == u.id
    else false
  }

  /** The two access rules differ for farmers only: record access follows the
      recorder, cow access follows the cow's owner. */
  lemma RecordAndCowAccessDifferOnlyForFarmers(u: User, cow: Cow, farm: Farm, recorder: Id)
    requires farm.id == cow.farm
    ensures !IsFarmer(u) ==> (RecordAccessOk(u, cow, farm, recorder) <==> CowAccessOk(u, cow, farm))
    ensures IsFarmer(u) && recorder == cow.farmer ==> (RecordAccessOk(u, cow, farm, recorder) <==> CowAccessOk(u, cow, farm))
  {
  }

  /** The asymmetry is real: a farmer who owns a cow is refused a record on
      it that someone else recorded, and a farmer who recorded on another
      farmer's cow keeps access to that record. */
  lemma FarmerAccessAsymmetry()
    ensures exists u: User, cow: Cow, farm: Farm, recorder: Id ::
      farm.id == cow.farm && CowAccessOk(u, cow, farm) && !RecordAccessOk(u, cow, farm, recorder)
    ensures exists u: User, cow: Cow, farm: Farm, recorder: Id ::
      farm.id == cow.farm && !CowAccessOk(u, cow, farm) && RecordAccessOk(u, cow, farm, recorder)
  {
    var owner := User(2, "j", Farmer, false);
    var other := User(3, "k", Farmer, false);
    var farm := Farm(1, "f", "l", 4, true);
    var cow := Cow(5, "t", "b", 1, 2, true);
    assert CowAccessOk(owner, cow, farm) && !RecordAccessOk(owner, cow, farm, 3);
    assert !CowAccessOk(other, cow, farm) && RecordAccessOk(other, cow, farm, 3);
  }
}
