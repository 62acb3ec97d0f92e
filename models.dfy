/** The FarmHub schema: one record type per table, the permission table of a
    user's role, and the database-level rules (primary keys, foreign keys,
    uniqueness constraints, cascading deletes) as predicates over a snapshot
    of all six tables. */
module Models {
  import opened Collections

  type Id = nat
  /** A calendar day, as a day number. */
  type Date = int
  /** An instant (creation and enrollment timestamps), totally ordered. */
  type Time = int

  /** The stored role string. `Unassigned` is any value outside the three
      choices, such as the empty role of an account made outside the API. */
  datatype Role = Admin | Agent | Farmer | Unassigned

  datatype User = User(id: Id, username: string, role: Role, isStaff: bool)

  datatype Farm = Farm(id: Id, name: string, location: string, agent: Id, isActive: bool)

  datatype Cow = Cow(id: Id, tagNumber: string, breed: string, farm: Id, farmer: Id, isActive: bool)

  datatype Activity = Activity(id: Id, activityType: string, date: Date, cow: Id, recordedBy: Id, createdAt: Time)

  /** `quantity` is in liters; it is a real so that sums are exact. */
  datatype MilkProduction = MilkProduction(id: Id, date: Date, quantity: real, cow: Id, recordedBy: Id, createdAt: Time)

  datatype Enrollment = Enrollment(
    id: Id, user: Id, farm: Id,
    isActive: bool, progress: int, isCompleted: bool,
    totalYield: real, isCertificateReady: bool, enrolledAt: Time)

  /** The whole database at one moment. */
  datatype Db = Db(
    users: map<Id, User>,
    farms: map<Id, Farm>,
    cows: map<Id, Cow>,
    milk: map<Id, MilkProduction>,
    activities: map<Id, Activity>,
    enrollments: map<Id, Enrollment>)

  /** `User.has_permission`: admins hold every permission, agents exactly
      view_farm and manage_farm, farmers exactly log_activity and record_milk,
      and a user with no recognised role holds none. */
  function HasPermission(u: User, permission: string): (granted: bool)
    ensures u.role == Admin ==> granted
    ensures u.role == Agent ==> (granted <==> permission == "view_farm" || permission == "manage_farm")
    ensures u.role == Farmer ==> (granted <==> permission == "log_activity" || permission == "record_milk")
    ensures u.role == Unassigned ==> !granted
  {
    match u.role
    case Admin => true
    case Agent => permission in ["view_farm", "manage_farm"]
    case Farmer => permission in ["log_activity", "record_milk"]
    case Unassigned => false
  }

  /** No permission is held by both an agent and a farmer, and whatever any
      user holds, an admin holds too. */
  lemma PermissionsAreLayered(a: User, f: User, x: User, admin: User, permission: string)
    requires a.role == Agent && f.role == Farmer && admin.role == Admin
    ensures !(HasPermission(a, permission) && HasPermission(f, permission))
    ensures HasPermission(x, permission) ==> HasPermission(admin, permission)
  {
  }

  // ----- Table invariants -----

  ghost predicate UsersOk(users: map<Id, User>) {
    && (forall k :: k in users ==> users[k].id == k)
    // AbstractUser.username is unique
    && (forall a, b :: a in users && b in users && users[a].username == users[b].username ==> a == b)
  }

  ghost predicate FarmsOk(farms: map<Id, Farm>, users: map<Id, User>) {
    forall k :: k in farms ==>
      && farms[k].id == k
      && farms[k].agent in users
      && users[farms[k].agent].role == Agent
  }

  ghost predicate CowsOk(cows: map<Id, Cow>, farms: map<Id, Farm>, users: map<Id, User>) {
    && (forall k :: k in cows ==>
          && cows[k].id == k
          && cows[k].farm in farms
          && cows[k].farmer in users
          && users[cows[k].farmer].role == Farmer)
    // Cow.tag_number is unique
    && (forall a, b :: a in cows && b in cows && cows[a].tagNumber == cows[b].tagNumber ==> a == b)
  }

  ghost predicate MilkOk(milk: map<Id, MilkProduction>, cows: map<Id, Cow>, users: map<Id, User>) {
    && (forall k :: k in milk ==>
          && milk[k].id == k
          && milk[k].cow in cows
          && milk[k].recordedBy in users)
    // constraint uq_cow_date_milk
    && (forall a, b :: a in milk && b in milk && milk[a].cow == milk[b].cow && milk[a].date == milk[b].date ==> a == b)
  }

  ghost predicate ActivitiesOk(activities: map<Id, Activity>, cows: map<Id, Cow>, users: map<Id, User>) {
    forall k :: k in activities ==>
      && activities[k].id == k
      && activities[k].cow in cows
      && activities[k].recordedBy in users
  }

  ghost predicate EnrollmentsOk(enrollments: map<Id, Enrollment>, users: map<Id, User>, farms: map<Id, Farm>) {
    && (forall k :: k in enrollments ==>
          && enrollments[k].id == k
          && enrollments[k].user in users
          && users[enrollments[k].user].role == Farmer
          && enrollments[k].farm in farms)
    // constraint uq_user_farm_enrollment
    && (forall a, b ::
          a in enrollments && b in enrollments &&
          enrollments[a].user == enrollments[b].user && enrollments[a].farm == enrollments[b].farm
          ==> a == b)
  }

  /** Every rule the database (and the handlers that write to it) keeps. */
  ghost predicate DbValid(db: Db) {
    && UsersOk(db.users)
    && FarmsOk(db.farms, db.users)
    && CowsOk(db.cows, db.farms, db.users)
    && MilkOk(db.milk, db.cows, db.users)
    && ActivitiesOk(db.activities, db.cows, db.users)
    && EnrollmentsOk(db.enrollments, db.users, db.farms)
  }

  // ----- Lookups used by the uniqueness validators -----

  predicate UsernameTaken(users: map<Id, User>, username: string) {
    exists k :: k in users && users[k].username == username
  }

  /** Another cow than `self` already carries `tag`. */
  predicate TagTaken(cows: map<Id, Cow>, tag: string, self: Option<Id>) {
    exists k :: k in cows && cows[k].tagNumber == tag && Some(k) != self
  }

  predicate MilkDayTaken(milk: map<Id, MilkProduction>, cow: Id, date: Date, self: Option<Id>) {
    exists k :: k in milk && milk[k].cow == cow && milk[k].date == date && Some(k) != self
  }

  predicate EnrollmentTaken(enrollments: map<Id, Enrollment>, user: Id, farm: Id, self: Option<Id>) {
    exists k :: k in enrollments && enrollments[k].user == user && enrollments[k].farm == farm && Some(k) != self
  }

  // ----- on_delete=CASCADE -----

  /** The milk records whose cow is still in `cows`. */
  function MilkOnCows(milk: map<Id, MilkProduction>, cows: map<Id, Cow>): map<Id, MilkProduction> {
    map k | k in milk && milk[k].cow in cows :: milk[k]
  }

  /** The activities whose cow is still in `cows`. */
  function ActivitiesOnCows(activities: map<Id, Activity>, cows: map<Id, Cow>): map<Id, Activity> {
    map k | k in activities && activities[k].cow in cows :: activities[k]
  }

  /** Deleting a cow deletes its milk records and activities. */
  function DeleteCow(db: Db, id: Id): Db {
    var cows := db.cows - {id};
    db.(cows := cows,
        milk := MilkOnCows(db.milk, cows),
        activities := ActivitiesOnCows(db.activities, cows))
  }

  /** Deleting a farm deletes its cows (and so their milk records and
      activities) and its enrollments. */
  function DeleteFarm(db: Db, id: Id): Db {
    var cows := CowsOffFarm(db.cows, id);
    db.(farms := db.farms - {id},
        cows := cows,
        milk := MilkOnCows(db.milk, cows),
        activities := ActivitiesOnCows(db.activities, cows),
        enrollments := EnrollmentsOffFarm(db.enrollments, id))
  }

  function CowsOffFarm(cows: map<Id, Cow>, farm: Id): map<Id, Cow> {
    map k | k in cows && cows[k].farm != farm :: cows[k]
  }

  function EnrollmentsOffFarm(enrollments: map<Id, Enrollment>, farm: Id): map<Id, Enrollment> {
    map k | k in enrollments && enrollments[k].farm != farm :: enrollments[k]
  }

  lemma CowsOffFarmOk(cows: map<Id, Cow>, farms: map<Id, Farm>, users: map<Id, User>, farm: Id)
    requires CowsOk(cows, farms, users)
    ensures CowsOk(CowsOffFarm(cows, farm), farms - {farm}, users)
  {
  }

  lemma EnrollmentsOffFarmOk(enrollments: map<Id, Enrollment>, users: map<Id, User>, farms: map<Id, Farm>, farm: Id)
    requires EnrollmentsOk(enrollments, users, farms)
    ensures EnrollmentsOk(EnrollmentsOffFarm(enrollments, farm), users, farms - {farm})
  {
  }

  lemma MilkOnCowsOk(milk: map<Id, MilkProduction>, cows: map<Id, Cow>, cows': map<Id, Cow>, users: map<Id, User>)
    requires MilkOk(milk, cows, users)
    ensures MilkOk(MilkOnCows(milk, cows'), cows', users)
  {
  }

  lemma ActivitiesOnCowsOk(activities: map<Id, Activity>, cows: map<Id, Cow>, cows': map<Id, Cow>, users: map<Id, User>)
    requires ActivitiesOk(activities, cows, users)
    ensures ActivitiesOk(ActivitiesOnCows(activities, cows'), cows', users)
  {
  }

  /** Deleting a cow keeps the database consistent. */
  lemma DeleteCowKeepsValid(db: Db, id: Id)
    requires DbValid(db)
    ensures DbValid(DeleteCow(db, id))
  {
    var d := DeleteCow(db, id);
    MilkOnCowsOk(db.milk, db.cows, d.cows, db.users);
    ActivitiesOnCowsOk(db.activities, db.cows, d.cows, db.users);
  }

  /** Deleting a farm keeps the database consistent. */
  lemma DeleteFarmKeepsValid(db: Db, id: Id)
    requires DbValid(db)
    ensures DbValid(DeleteFarm(db, id))
  {
    var d := DeleteFarm(db, id);
    CowsOffFarmOk(db.cows, db.farms, db.users, id);
    EnrollmentsOffFarmOk(db.enrollments, db.users, db.farms, id);
    MilkOnCowsOk(db.milk, db.cows, d.cows, db.users);
    ActivitiesOnCowsOk(db.activities, db.cows, d.cows, db.users);
  }

  /** Deleting a cow removes exactly the milk records and activities that
      refer to it and leaves every other row as it was. */
  lemma DeleteCowCascades(db: Db, id: Id)
    requires MilkOk(db.milk, db.cows, db.users) && ActivitiesOk(db.activities, db.cows, db.users)
    ensures id !in DeleteCow(db, id).cows
    ensures forall k :: k in db.milk ==> (k in DeleteCow(db, id).milk <==> db.milk[k].cow != id)
    ensures forall k :: k in db.activities ==> (k in DeleteCow(db, id).activities <==> db.activities[k].cow != id)
    ensures forall k :: k in DeleteCow(db, id).milk ==> DeleteCow(db, id).milk[k] == db.milk[k]
    ensures forall k :: k in DeleteCow(db, id).activities ==> DeleteCow(db, id).activities[k] == db.activities[k]
  {
  }

  /** Deleting a farm leaves no cow and no enrollment that refers to it, and
      no milk record or activity that refers to one of its cows; every other
      row is kept. */
  lemma DeleteFarmCascades(db: Db, id: Id)
    requires MilkOk(db.milk, db.cows, db.users) && ActivitiesOk(db.activities, db.cows, db.users)
    ensures id !in DeleteFarm(db, id).farms
    ensures forall k :: k in db.cows ==> (k in DeleteFarm(db, id).cows <==> db.cows[k].farm != id)
    ensures forall k :: k in db.enrollments ==> (k in DeleteFarm(db, id).enrollments <==> db.enrollments[k].farm != id)
    ensures forall k :: k in db.milk ==> (k in DeleteFarm(db, id).milk <==> db.cows[db.milk[k].cow].farm != id)
    ensures forall k :: k in db.activities ==>
              (k in DeleteFarm(db, id).activities <==> db.cows[db.activities[k].cow].farm != id)
  {
  }
}
