/** What a successful write handler does to the tables, as functions from
    one database snapshot to the next, and the proof that each of them keeps
    every rule of the schema and keeps row ids fresh. */
module Transitions {
  import opened Collections
  import opened Models
  import opened Permissions
  import Ownership
  import opened Serializers
  import opened Listing

  // ----- Lookups and inline conditions of the views -----

  /** `get_object_or_404(User, id=id, role=role)` finds a row. */
  predicate HasRole(users: map<Id, User>, id: Id, role: Role) {
    id in users && users[id].role == role
  }

  // ----- Transitions: what a successful handler does to the tables -----

  function AddUser(db: Db, u: User): Db {
    db.(users := db.users[u.id := u])
  }

  /** `farmer_create`: a new farmer account and its enrollment in the farm.
      The account is new, so `get_or_create` always creates. */
  function EnrollNewFarmer(db: Db, id: Id, username: string, farm: Id, now: Time): Db {
    var withUser := AddUser(db, User(id, username, Farmer, false));
    PutEnrollment(withUser, DefaultEnrollment(id + 1, id, farm, now))
  }

  function PutFarm(db: Db, f: Farm): Db {
    db.(farms := db.farms[f.id := f])
  }

  function PutCow(db: Db, c: Cow): Db {
    db.(cows := db.cows[c.id := c])
  }

  function PutMilk(db: Db, m: MilkProduction): Db {
    db.(milk := db.milk[m.id := m])
  }

  function RemoveMilk(db: Db, id: Id): Db {
    db.(milk := db.milk - {id})
  }

  function PutActivity(db: Db, a: Activity): Db {
    db.(activities := db.activities[a.id := a])
  }

  function RemoveActivity(db: Db, id: Id): Db {
    db.(activities := db.activities - {id})
  }

  function PutEnrollment(db: Db, e: Enrollment): Db {
    db.(enrollments := db.enrollments[e.id := e])
  }

  function RemoveEnrollment(db: Db, id: Id): Db {
    db.(enrollments := db.enrollments - {id})
  }

  // ----- Row ids -----

  ghost predicate KeysBelow(keys: set<Id>, next: nat) {
    forall k :: k in keys ==> 0 < k < next
  }

  /** Every row id is positive (so that no stored row looks like an absent
      id) and below the next id to hand out. */
  ghost predicate IdsBelow(db: Db, next: nat) {
    && KeysBelow(db.users.Keys, next)
    && KeysBelow(db.farms.Keys, next)
    && KeysBelow(db.cows.Keys, next)
    && KeysBelow(db.milk.Keys, next)
    && KeysBelow(db.activities.Keys, next)
    && KeysBelow(db.enrollments.Keys, next)
  }

  // ----- Consistency of the transitions -----

  /** The database keeps every rule and every row id is below `next`. */
  ghost predicate Consistent(db: Db, next: nat) {
    DbValid(db) && IdsBelow(db, next) && 0 < next
  }

  /** `m'` keeps every row of `m` as it was. */
  ghost predicate Extends<T>(m: map<Id, T>, m': map<Id, T>) {
    forall k :: k in m ==> k in m' && m'[k] == m[k]
  }

  // Each table rule stays true when the tables it refers to only grow.

  lemma FarmsOkGrow(farms: map<Id, Farm>, users: map<Id, User>, users': map<Id, User>)
    requires FarmsOk(farms, users) && Extends(users, users')
    ensures FarmsOk(farms, users')
  {
  }

  lemma CowsOkGrow(cows: map<Id, Cow>, farms: map<Id, Farm>, users: map<Id, User>, farms': map<Id, Farm>, users': map<Id, User>)
    requires CowsOk(cows, farms, users) && farms.Keys <= farms'.Keys && Extends(users, users')
    ensures CowsOk(cows, farms', users')
  {
  }

  lemma MilkOkGrow(milk: map<Id, MilkProduction>, cows: map<Id, Cow>, users: map<Id, User>, cows': map<Id, Cow>, users': map<Id, User>)
    requires MilkOk(milk, cows, users) && cows.Keys <= cows'.Keys && users.Keys <= users'.Keys
    ensures MilkOk(milk, cows', users')
  {
  }

  lemma ActivitiesOkGrow(activities: map<Id, Activity>, cows: map<Id, Cow>, users: map<Id, User>, cows': map<Id, Cow>, users': map<Id, User>)
    requires ActivitiesOk(activities, cows, users) && cows.Keys <= cows'.Keys && users.Keys <= users'.Keys
    ensures ActivitiesOk(activities, cows', users')
  {
  }

  lemma EnrollmentsOkGrow(enrollments: map<Id, Enrollment>, users: map<Id, User>, farms: map<Id, Farm>, users': map<Id, User>, farms': map<Id, Farm>)
    requires EnrollmentsOk(enrollments, users, farms) && Extends(users, users') && farms.Keys <= farms'.Keys
    ensures EnrollmentsOk(enrollments, users', farms')
  {
  }

  // Each table rule stays true when one row is saved that obeys it.

  lemma UsersOkAdd(users: map<Id, User>, u: User)
    requires UsersOk(users) && u.id !in users && !UsernameTaken(users, u.username)
    ensures UsersOk(users[u.id := u])
  {
    assert forall k :: k in users ==> users[k].username != u.username;
  }

  lemma FarmsOkPut(farms: map<Id, Farm>, users: map<Id, User>, f: Farm)
    requires FarmsOk(farms, users) && HasRole(users, f.agent, Agent)
    ensures FarmsOk(farms[f.id := f], users)
  {
  }

  lemma CowsOkPut(cows: map<Id, Cow>, farms: map<Id, Farm>, users: map<Id, User>, c: Cow)
    requires CowsOk(cows, farms, users)
    requires c.farm in farms && HasRole(users, c.farmer, Farmer)
    requires !TagTaken(cows, c.tagNumber, Some(c.id))
    ensures CowsOk(cows[c.id := c], farms, users)
  {
    assert forall k :: k in cows && cows[k].tagNumber == c.tagNumber ==> Some(k) == Some(c.id);
  }

  lemma MilkOkPut(milk: map<Id, MilkProduction>, cows: map<Id, Cow>, users: map<Id, User>, m: MilkProduction)
    requires MilkOk(milk, cows, users)
    requires m.cow in cows && m.recordedBy in users
    requires !MilkDayTaken(milk, m.cow, m.date, Some(m.id))
    ensures MilkOk(milk[m.id := m], cows, users)
  {
    assert forall k :: k in milk && milk[k].cow == m.cow && milk[k].date == m.date ==> Some(k) == Some(m.id);
  }

  lemma EnrollmentsOkPut(enrollments: map<Id, Enrollment>, users: map<Id, User>, farms: map<Id, Farm>, e: Enrollment)
    requires EnrollmentsOk(enrollments, users, farms)
    requires HasRole(users, e.user, Farmer) && e.farm in farms
    requires !EnrollmentTaken(enrollments, e.user, e.farm, Some(e.id))
    ensures EnrollmentsOk(enrollments[e.id := e], users, farms)
  {
    assert forall k :: k in enrollments && enrollments[k].user == e.user && enrollments[k].farm == e.farm ==> Some(k) == Some(e.id);
  }

  // The transitions keep the database consistent.

  /** The id counter after saving a row with id `id`: a new row (the id
      handed out now) moves it on, an updated row leaves it. */
  function Bump(next: nat, id: Id): nat {
    if id == next then next + 1 else next
  }

  /** Adding a user with a fresh id and a free username keeps every rule. */
  lemma AddUserKeepsRules(db: Db, u: User)
    requires DbValid(db) && u.id !in db.users && !UsernameTaken(db.users, u.username)
    ensures DbValid(AddUser(db, u))
  {
    assert AddUser(db, u).(users := db.users) == db;
    var users' := db.users[u.id := u];
    UsersOkAdd(db.users, u);
    FarmsOkGrow(db.farms, db.users, users');
    CowsOkGrow(db.cows, db.farms, db.users, db.farms, users');
    MilkOkGrow(db.milk, db.cows, db.users, db.cows, users');
    ActivitiesOkGrow(db.activities, db.cows, db.users, db.cows, users');
    EnrollmentsOkGrow(db.enrollments, db.users, db.farms, users', db.farms);
  }

  /** A new user takes the next id. */
  lemma AddUserKeepsConsistent(db: Db, next: nat, u: User)
    requires Consistent(db, next)
    requires u.id == next && !UsernameTaken(db.users, u.username)
    ensures Consistent(AddUser(db, u), next + 1)
  {
    AddUserKeepsRules(db, u);
    AddUserKeepsIdsBelow(db, next, u);
  }

  lemma AddUserKeepsIdsBelow(db: Db, next: nat, u: User)
    requires IdsBelow(db, next) && 0 < next && u.id == next
    ensures IdsBelow(AddUser(db, u), next + 1)
  {
    IdsBelowAfter(db, AddUser(db, u), next, next + 1, {next});
  }

  /** `farmer_create` takes two ids, the farmer's and the enrollment's, and
      leaves a consistent database. */
  lemma EnrollNewFarmerKeepsConsistent(db: Db, next: nat, username: string, farm: Id, now: Time)
    requires Consistent(db, next)
    requires !UsernameTaken(db.users, username) && farm in db.farms
    ensures Consistent(EnrollNewFarmer(db, next, username, farm, now), next + 2)
  {
    EnrollNewFarmerKeepsRules(db, next, username, farm, now);
    EnrollNewFarmerKeepsIdsBelow(db, next, username, farm, now);
  }

  lemma EnrollNewFarmerKeepsIdsBelow(db: Db, next: nat, username: string, farm: Id, now: Time)
    requires IdsBelow(db, next) && 0 < next
    ensures IdsBelow(EnrollNewFarmer(db, next, username, farm, now), next + 2)
  {
    IdsBelowAfter(db, EnrollNewFarmer(db, next, username, farm, now), next, next + 2, {next, next + 1});
  }

  lemma EnrollNewFarmerKeepsRules(db: Db, next: nat, username: string, farm: Id, now: Time)
    requires DbValid(db) && KeysBelow(db.users.Keys, next)
    requires !UsernameTaken(db.users, username) && farm in db.farms
    ensures DbValid(EnrollNewFarmer(db, next, username, farm, now))
  {
    var u := User(next, username, Farmer, false);
    AddUserKeepsRules(db, u);
    NoEnrollmentOfFreshUser(db, next);
    var d := AddUser(db, u);
    var e := DefaultEnrollment(next + 1, next, farm, now);
    assert d.enrollments == db.enrollments && d.farms == db.farms && e.user == next;
    assert forall k :: k in d.enrollments ==> d.enrollments[k].user != e.user;
    PutEnrollmentKeepsRules(d, e);
  }



  /** A snapshot whose tables hold only old rows and rows with the `added`
      ids keeps its ids below the new counter. */
  lemma IdsBelowAfter(db: Db, d: Db, next: nat, next': nat, added: set<Id>)
    requires IdsBelow(db, next) && next <= next' && KeysBelow(added, next')
    requires d.users.Keys <= db.users.Keys + added && d.farms.Keys <= db.farms.Keys + added
    requires d.cows.Keys <= db.cows.Keys + added && d.milk.Keys <= db.milk.Keys + added
    requires d.activities.Keys <= db.activities.Keys + added && d.enrollments.Keys <= db.enrollments.Keys + added
    ensures IdsBelow(d, next')
  {
  }

  /** A snapshot that only lost rows keeps its ids below the counter. */
  lemma ShrinkKeepsIdsBelow(db: Db, d: Db, next: nat)
    requires IdsBelow(db, next)
    requires d.users.Keys <= db.users.Keys && d.farms.Keys <= db.farms.Keys && d.cows.Keys <= db.cows.Keys
    requires d.milk.Keys <= db.milk.Keys && d.activities.Keys <= db.activities.Keys
    requires d.enrollments.Keys <= db.enrollments.Keys
    ensures IdsBelow(d, next)
  {
    IdsBelowAfter(db, d, next, next, {});
  }

  /** No enrollment refers to a user id not handed out yet. */
  lemma NoEnrollmentOfFreshUser(db: Db, next: nat)
    requires EnrollmentsOk(db.enrollments, db.users, db.farms) && KeysBelow(db.users.Keys, next)
    ensures forall k :: k in db.enrollments ==> db.enrollments[k].user != next
  {
  }

  /** The new farmer's active farm is the farm named in the request. */
  lemma NewFarmerLandsOnFarm(db: Db, next: nat, username: string, farm: Id, now: Time)
    requires DbValid(db) && IdsBelow(db, next)
    ensures var d := EnrollNewFarmer(db, next, username, farm, now);
      && next in d.users && d.users[next].role == Farmer
      && Ownership.ActiveFarmForFarmer(d.enrollments, d.users[next]) == Some(farm)
  {
    NoEnrollmentOfFreshUser(db, next);
    var u := User(next, username, Farmer, false);
    var e := DefaultEnrollment(next + 1, next, farm, now);
    var d := EnrollNewFarmer(db, next, username, farm, now);
    assert d.enrollments == db.enrollments[e.id := e] && d.users[next] == u;
    NewFarmerActiveFarm(db.enrollments, u, e);
  }

  /** An agent who manages the farm finds the new farmer in their user list. */
  lemma NewFarmerVisibleToAgent(db: Db, next: nat, username: string, farm: Id, now: Time, agent: User)
    requires farm in db.farms && db.farms[farm].agent == agent.id
    requires agent.role == Agent && agent.id in db.users && db.users[agent.id] == agent && agent.id != next
    ensures next in UserList(EnrollNewFarmer(db, next, username, farm, now), Known(agent)).value
  {
    var d := EnrollNewFarmer(db, next, username, farm, now);
    assert farm in Ownership.FarmsManaged(d.farms, agent);
    assert next + 1 in d.enrollments && d.enrollments[next + 1].user == next && d.enrollments[next + 1].farm == farm;
  }

  /** A farmer whose only enrollment is `e`, which is active, is on `e`'s farm. */
  lemma NewFarmerActiveFarm(enrollments: map<Id, Enrollment>, u: User, e: Enrollment)
    requires u.role == Farmer
    requires forall k :: k in enrollments ==> enrollments[k].user != u.id
    requires e.user == u.id && e.isActive
    ensures Ownership.LatestActiveEnrollment(enrollments[e.id := e], u.id) == Some(e.id)
    ensures Ownership.ActiveFarmForFarmer(enrollments[e.id := e], u) == Some(e.farm)
  {
    var en := enrollments[e.id := e];
    assert Ownership.ActiveFor(en[e.id], u.id);
    assert forall k :: k in en && Ownership.ActiveFor(en[k], u.id) ==> k == e.id;
  }

  // Saving one row: the rules of the schema, then the ids.

  lemma PutFarmKeepsIdsBelow(db: Db, next: nat, f: Farm)
    requires IdsBelow(db, next) && 0 < next
    requires f.id == next || f.id in db.farms
    ensures IdsBelow(PutFarm(db, f), Bump(next, f.id)) && 0 < Bump(next, f.id)
  {
    IdsBelowAfter(db, PutFarm(db, f), next, Bump(next, f.id), {f.id});
  }

  lemma PutFarmKeepsRules(db: Db, f: Farm)
    requires DbValid(db)
    requires HasRole(db.users, f.agent, Agent)
    ensures DbValid(PutFarm(db, f))
  {
    var farms' := db.farms[f.id := f];
    FarmsOkPut(db.farms, db.users, f);
    CowsOkGrow(db.cows, db.farms, db.users, farms', db.users);
    EnrollmentsOkGrow(db.enrollments, db.users, db.farms, db.users, farms');
  }

  /** Saving a farm whose agent is an agent keeps the database consistent. */
  lemma PutFarmKeepsConsistent(db: Db, next: nat, f: Farm)
    requires Consistent(db, next)
    requires HasRole(db.users, f.agent, Agent)
    requires f.id == next || f.id in db.farms
    ensures Consistent(PutFarm(db, f), Bump(next, f.id))
  {
    PutFarmKeepsRules(db, f);
    PutFarmKeepsIdsBelow(db, next, f);
  }

  lemma PutCowKeepsIdsBelow(db: Db, next: nat, c: Cow)
    requires IdsBelow(db, next) && 0 < next
    requires c.id == next || c.id in db.cows
    ensures IdsBelow(PutCow(db, c), Bump(next, c.id)) && 0 < Bump(next, c.id)
  {
    IdsBelowAfter(db, PutCow(db, c), next, Bump(next, c.id), {c.id});
  }

  lemma PutCowKeepsRules(db: Db, c: Cow)
    requires DbValid(db)
    requires c.farm in db.farms && HasRole(db.users, c.farmer, Farmer)
    requires !TagTaken(db.cows, c.tagNumber, Some(c.id))
    ensures DbValid(PutCow(db, c))
  {
    var cows' := db.cows[c.id := c];
    CowsOkPut(db.cows, db.farms, db.users, c);
    MilkOkGrow(db.milk, db.cows, db.users, cows', db.users);
    ActivitiesOkGrow(db.activities, db.cows, db.users, cows', db.users);
  }

  /** Saving a cow on an existing farm, owned by a farmer, with a tag no
      other cow carries keeps the database consistent. */
  lemma PutCowKeepsConsistent(db: Db, next: nat, c: Cow)
    requires Consistent(db, next)
    requires c.farm in db.farms && HasRole(db.users, c.farmer, Farmer)
    requires !TagTaken(db.cows, c.tagNumber, Some(c.id))
    requires c.id == next || c.id in db.cows
    ensures Consistent(PutCow(db, c), Bump(next, c.id))
  {
    PutCowKeepsRules(db, c);
    PutCowKeepsIdsBelow(db, next, c);
  }

  lemma PutMilkKeepsIdsBelow(db: Db, next: nat, m: MilkProduction)
    requires IdsBelow(db, next) && 0 < next
    requires m.id == next || m.id in db.milk
    ensures IdsBelow(PutMilk(db, m), Bump(next, m.id)) && 0 < Bump(next, m.id)
  {
    IdsBelowAfter(db, PutMilk(db, m), next, Bump(next, m.id), {m.id});
  }

  lemma PutMilkKeepsRules(db: Db, m: MilkProduction)
    requires DbValid(db)
    requires m.cow in db.cows && m.recordedBy in db.users
    requires !MilkDayTaken(db.milk, m.cow, m.date, Some(m.id))
    ensures DbValid(PutMilk(db, m))
  {
    MilkOkPut(db.milk, db.cows, db.users, m);
  }

  /** Saving a milk record on an existing cow, by an existing user, on a
      day no other record of that cow uses keeps the database consistent. */
  lemma PutMilkKeepsConsistent(db: Db, next: nat, m: MilkProduction)
    requires Consistent(db, next)
    requires m.cow in db.cows && m.recordedBy in db.users
    requires !MilkDayTaken(db.milk, m.cow, m.date, Some(m.id))
    requires m.id == next || m.id in db.milk
    ensures Consistent(PutMilk(db, m), Bump(next, m.id))
  {
    PutMilkKeepsRules(db, m);
    PutMilkKeepsIdsBelow(db, next, m);
  }

  lemma ActivitiesOkPut(activities: map<Id, Activity>, cows: map<Id, Cow>, users: map<Id, User>, a: Activity)
    requires ActivitiesOk(activities, cows, users)
    requires a.cow in cows && a.recordedBy in users
    ensures ActivitiesOk(activities[a.id := a], cows, users)
  {
  }

  lemma PutActivityKeepsIdsBelow(db: Db, next: nat, a: Activity)
    requires IdsBelow(db, next) && 0 < next
    requires a.id == next || a.id in db.activities
    ensures IdsBelow(PutActivity(db, a), Bump(next, a.id)) && 0 < Bump(next, a.id)
  {
    IdsBelowAfter(db, PutActivity(db, a), next, Bump(next, a.id), {a.id});
  }

  lemma PutActivityKeepsRules(db: Db, a: Activity)
    requires DbValid(db)
    requires a.cow in db.cows && a.recordedBy in db.users
    ensures DbValid(PutActivity(db, a))
  {
    ActivitiesOkPut(db.activities, db.cows, db.users, a);
  }

  /** Saving an activity on an existing cow, by an existing user, keeps the
      database consistent. */
  lemma PutActivityKeepsConsistent(db: Db, next: nat, a: Activity)
    requires Consistent(db, next)
    requires a.cow in db.cows && a.recordedBy in db.users
    requires a.id == next || a.id in db.activities
    ensures Consistent(PutActivity(db, a), Bump(next, a.id))
  {
    PutActivityKeepsRules(db, a);
    PutActivityKeepsIdsBelow(db, next, a);
  }

  lemma PutEnrollmentKeepsIdsBelow(db: Db, next: nat, e: Enrollment)
    requires IdsBelow(db, next) && 0 < next
    requires e.id == next || e.id in db.enrollments
    ensures IdsBelow(PutEnrollment(db, e), Bump(next, e.id)) && 0 < Bump(next, e.id)
  {
    IdsBelowAfter(db, PutEnrollment(db, e), next, Bump(next, e.id), {e.id});
  }

  lemma PutEnrollmentKeepsRules(db: Db, e: Enrollment)
    requires DbValid(db)
    requires HasRole(db.users, e.user, Farmer) && e.farm in db.farms
    requires !EnrollmentTaken(db.enrollments, e.user, e.farm, Some(e.id))
    ensures DbValid(PutEnrollment(db, e))
  {
    EnrollmentsOkPut(db.enrollments, db.users, db.farms, e);
  }

  /** Saving an enrollment of a farmer in an existing farm, for a pair no
      other enrollment uses, keeps the database consistent. */
  lemma PutEnrollmentKeepsConsistent(db: Db, next: nat, e: Enrollment)
    requires Consistent(db, next)
    requires HasRole(db.users, e.user, Farmer) && e.farm in db.farms
    requires !EnrollmentTaken(db.enrollments, e.user, e.farm, Some(e.id))
    requires e.id == next || e.id in db.enrollments
    ensures Consistent(PutEnrollment(db, e), Bump(next, e.id))
  {
    PutEnrollmentKeepsRules(db, e);
    PutEnrollmentKeepsIdsBelow(db, next, e);
  }

  // Deleting rows.

  /** Deleting a farm (with its cascade) keeps the database consistent. */
  lemma DeleteFarmKeepsConsistent(db: Db, next: nat, id: Id)
    requires Consistent(db, next)
    ensures Consistent(DeleteFarm(db, id), next)
  {
    DeleteFarmKeepsValid(db, id);
    ShrinkKeepsIdsBelow(db, DeleteFarm(db, id), next);
  }

  /** Deleting a cow (with its cascade) keeps the database consistent. */
  lemma DeleteCowKeepsConsistent(db: Db, next: nat, id: Id)
    requires Consistent(db, next)
    ensures Consistent(DeleteCow(db, id), next)
  {
    DeleteCowKeepsValid(db, id);
    ShrinkKeepsIdsBelow(db, DeleteCow(db, id), next);
  }

  // Each table rule stays true when a row of that table is dropped.

  lemma MilkOkShrink(milk: map<Id, MilkProduction>, cows: map<Id, Cow>, users: map<Id, User>, id: Id)
    requires MilkOk(milk, cows, users)
    ensures MilkOk(milk - {id}, cows, users)
  {
  }

  lemma ActivitiesOkShrink(activities: map<Id, Activity>, cows: map<Id, Cow>, users: map<Id, User>, id: Id)
    requires ActivitiesOk(activities, cows, users)
    ensures ActivitiesOk(activities - {id}, cows, users)
  {
  }

  lemma EnrollmentsOkShrink(enrollments: map<Id, Enrollment>, users: map<Id, User>, farms: map<Id, Farm>, id: Id)
    requires EnrollmentsOk(enrollments, users, farms)
    ensures EnrollmentsOk(enrollments - {id}, users, farms)
  {
  }

  /** Nothing refers to a milk record, an activity or an enrollment, so
      removing one keeps the database consistent. */
  lemma RemoveMilkKeepsConsistent(db: Db, next: nat, id: Id)
    requires Consistent(db, next)
    ensures Consistent(RemoveMilk(db, id), next)
  {
    var d := RemoveMilk(db, id);
    assert d.(milk := db.milk) == db;
    MilkOkShrink(db.milk, db.cows, db.users, id);
    ShrinkKeepsIdsBelow(db, d, next);
  }

  lemma RemoveActivityKeepsConsistent(db: Db, next: nat, id: Id)
    requires Consistent(db, next)
    ensures Consistent(RemoveActivity(db, id), next)
  {
    var d := RemoveActivity(db, id);
    assert d.(activities := db.activities) == db;
    ActivitiesOkShrink(db.activities, db.cows, db.users, id);
    ShrinkKeepsIdsBelow(db, d, next);
  }

  lemma RemoveEnrollmentKeepsConsistent(db: Db, next: nat, id: Id)
    requires Consistent(db, next)
    ensures Consistent(RemoveEnrollment(db, id), next)
  {
    var d := RemoveEnrollment(db, id);
    assert d.(enrollments := db.enrollments) == db;
    EnrollmentsOkShrink(db.enrollments, db.users, db.farms, id);
    ShrinkKeepsIdsBelow(db, d, next);
  }
}
