/** The decision each write handler of the API views takes, over one
    snapshot of the database: the status it answers with, in the order the
    view runs its checks (the permission class, then the required field, the
    lookup, the role or ownership test and the serializer), and the values it
    passes to `save`. The store applies the matching transition exactly when
    the decision is `Ok`. */
module Handlers {
  import opened Collections
  import opened Models
  import opened Permissions
  import Ownership
  import opened Serializers
  import opened Listing
  import opened Transitions

  /** Who may update or delete a farm, add a farmer to it, and update or
      delete an enrollment in it: an admin, or the farm's agent. */
  function CanManageFarm(u: User, farm: Farm): (ok: bool)
    ensures ok <==> u.role == Admin || (u.role == Agent && farm.agent == u.id)
    ensures ok ==> u.role != Farmer
  {
    Ownership.IsAdmin(u) || (Ownership.IsAgent(u) && Ownership.AgentOwnsFarm(u, farm))
  }

  /** Who may update or delete a milk record or an activity: an admin, or
      the farmer who recorded it. An agent never may, even on their own farm. */
  function CanEditRecord(u: User, recorder: Id): (ok: bool)
    ensures u.role == Agent || u.role == Unassigned ==> !ok
    ensures u.role == Farmer ==> (ok <==> recorder == u.id)
    ensures u.role == Admin ==> ok
  {
    Ownership.IsAdmin(u) || (Ownership.IsFarmer(u) && recorder == u.id)
  }

  /** Whoever may change a record may also read it; the converse fails for
      the agent who owns the cow's farm. */
  lemma EditRightsWithinReadRights(u: User, cow: Cow, farm: Farm, recorder: Id)
    requires farm.id == cow.farm
    ensures CanEditRecord(u, recorder) ==> Ownership.RecordAccessOk(u, cow, farm, recorder)
    ensures u.role == Agent && farm.agent == u.id ==>
      Ownership.RecordAccessOk(u, cow, farm, recorder) && !CanEditRecord(u, recorder)
  {
  }

  // ----- Users -----

  /** `agent_create`: admins only; then the serializer. */
  function AgentCreateStatus(db: Db, p: Principal, form: UserForm): (s: Status)
    ensures !(p.Known? && p.user.role == Admin) ==> s == Denied(p)
    ensures s == Ok <==> p.Known? && p.user.role == Admin && form.valid && !UsernameTaken(db.users, form.username)
  {
    if !(IsAuthenticated(p) && IsSuperAdmin(p.user)) then Denied(p)
    else if !form.valid || UsernameTaken(db.users, form.username) then BadRequest
    else Ok
  }

  /** `farmer_create`: admins and agents only; the farm is required (400),
      must exist (404) and, for an agent, be theirs (403); then the serializer. */
  function FarmerCreateStatus(db: Db, p: Principal, form: UserForm, farm: Option<Id>): (s: Status)
    ensures !IsAdminOrAgent(p) ==> s == Denied(p)
    ensures IsAdminOrAgent(p) && !Truthy(farm) ==> s == BadRequest
    ensures IsAdminOrAgent(p) && Truthy(farm) && farm.value !in db.farms ==> s == NotFound
    ensures IsAdminOrAgent(p) && Truthy(farm) && farm.value in db.farms && !CanManageFarm(p.user, db.farms[farm.value])
      ==> s == Forbidden
    ensures s == Ok <==>
      && p.Known? && Truthy(farm) && farm.value in db.farms && CanManageFarm(p.user, db.farms[farm.value])
      && form.valid && !UsernameTaken(db.users, form.username)
  {
    if !(IsAuthenticated(p) && IsAdminOrAgent(p)) then Denied(p)
    else if !Truthy(farm) then BadRequest
    else if farm.value !in db.farms then NotFound
    else if Ownership.IsAgent(p.user) && !Ownership.AgentOwnsFarm(p.user, db.farms[farm.value]) then Forbidden
    else if !form.valid || UsernameTaken(db.users, form.username) then BadRequest
    else Ok
  }

  // ----- Farms -----

  /** `farm_list_create` on POST: an agent's farm is theirs; an admin must
      name an existing agent (400 when absent, 404 when not an agent). */
  function FarmCreateStatus(db: Db, p: Principal, form: FarmForm): (s: Status)
    ensures !(p.Known? && p.user.role in {Admin, Agent}) ==> s == Denied(p)
    ensures s == Ok ==> p.Known? && form.valid
    ensures s == Ok && p.user.role != Agent ==> Truthy(form.agent) && HasRole(db.users, form.agent.value, Agent)
    ensures p.Known? && p.user.role == Admin && form.valid && !Truthy(form.agent) ==> s == BadRequest
    ensures p.Known? && p.user.role == Admin && form.valid && Truthy(form.agent) && !HasRole(db.users, form.agent.value, Agent)
      ==> s == NotFound
    ensures p.Known? && p.user.role == Agent ==> (s == Ok <==> form.valid)
    ensures p.Known? && p.user.role == Admin ==>
      (s == Ok <==> form.valid && Truthy(form.agent) && HasRole(db.users, form.agent.value, Agent))
  {
    if !PostAdminOrAgentElseAuth(p, Post) then Denied(p)
    else if !form.valid then BadRequest
    else if Ownership.IsAgent(p.user) then Ok
    else if !Truthy(form.agent) then BadRequest
    else if !HasRole(db.users, form.agent.value, Agent) then NotFound
    else Ok
  }

  /** The agent of the new farm: the requesting agent, or the one an admin named. */
  function FarmCreateAgent(p: Principal, form: FarmForm): Id
    requires p.Known? && (p.user.role == Agent || form.agent.Some?)
  {
    if p.user.role == Agent then p.user.id else form.agent.value
  }

  /** `farm_detail` on PUT. */
  function FarmUpdateStatus(db: Db, p: Principal, id: Id, form: FarmForm): (s: Status)
    ensures p.Anonymous? ==> s == Unauthenticated
    ensures p.Known? && id !in db.farms ==> s == NotFound
    ensures p.Known? && id in db.farms && !CanManageFarm(p.user, db.farms[id]) ==> s == Forbidden
    ensures s == Ok ==> p.Known? && id in db.farms && CanManageFarm(p.user, db.farms[id]) && form.valid
    ensures s == Ok && p.user.role == Admin && Truthy(form.agent) ==> HasRole(db.users, form.agent.value, Agent)
    ensures s == NotFound && p.Known? && id in db.farms ==> p.user.role == Admin
    ensures s == Ok <==>
      && p.Known? && id in db.farms && CanManageFarm(p.user, db.farms[id]) && form.valid
      && (p.user.role == Admin && Truthy(form.agent) ==> HasRole(db.users, form.agent.value, Agent))
  {
    if !AuthenticatedOrReadOnly(p, Put) then Denied(p)
    else if id !in db.farms then NotFound
    else if !CanManageFarm(p.user, db.farms[id]) then Forbidden
    else if !form.valid then BadRequest
    else if Ownership.IsAdmin(p.user) && Truthy(form.agent) && !HasRole(db.users, form.agent.value, Agent) then NotFound
    else Ok
  }

  /** The farm's agent after an update: only an admin who names one changes
      it; the agent field an agent sends is dropped. */
  function FarmUpdateAgent(db: Db, p: Principal, id: Id, form: FarmForm): (agent: Id)
    requires p.Known? && id in db.farms
    ensures p.user.role != Admin ==> agent == db.farms[id].agent
    ensures !Truthy(form.agent) ==> agent == db.farms[id].agent
    ensures p.user.role == Admin && Truthy(form.agent) ==> agent == form.agent.value
  {
    if Ownership.IsAdmin(p.user) && Truthy(form.agent) then form.agent.value else db.farms[id].agent
  }

  /** `farm_detail` on DELETE. */
  function FarmDeleteStatus(db: Db, p: Principal, id: Id): (s: Status)
    ensures p.Anonymous? ==> s == Unauthenticated
    ensures p.Known? && id !in db.farms ==> s == NotFound
    ensures s == Ok <==> p.Known? && id in db.farms && CanManageFarm(p.user, db.farms[id])
    ensures s != Ok ==> s == Denied(p) || s == NotFound
  {
    if !AuthenticatedOrReadOnly(p, Delete) then Denied(p)
    else if id !in db.farms then NotFound
    else if !CanManageFarm(p.user, db.farms[id]) then Forbidden
    else Ok
  }

  // ----- Cows -----

  /** The farmer a new cow belongs to: the requesting farmer, or the one an
      agent or admin named. */
  function CowCreateOwner(p: Principal, form: CowForm): Id
    requires p.Known? && (p.user.role == Farmer || form.farmer.Some?)
  {
    if p.user.role == Farmer then p.user.id else form.farmer.value
  }

  /** `cow_list_create` on POST. A farmer's cow goes on their active farm
      (400 when there is none). An agent or admin names the farmer (400 when
      absent, 404 when not a farmer); the cow goes on that farmer's active
      farm (400 when none), which an agent must manage (403). */
  function CowCreateStatus(db: Db, p: Principal, form: CowForm): (s: Status)
    requires DbValid(db) && RequesterIn(db.users, p)
    ensures p.Anonymous? ==> s == Unauthenticated
    ensures p.Known? && p.user.role == Unassigned ==> s == Forbidden
    ensures p.Known? && p.user.role == Farmer && Ownership.ActiveFarmForFarmer(db.enrollments, p.user).None? ==> s == BadRequest
    ensures s == Ok ==>
      && p.Known? && (p.user.role == Farmer || Truthy(form.farmer))
      && HasRole(db.users, CowCreateOwner(p, form), Farmer)
      && Ownership.ActiveFarmForFarmer(db.enrollments, db.users[CowCreateOwner(p, form)]).Some?
      && Ownership.ActiveFarmForFarmer(db.enrollments, db.users[CowCreateOwner(p, form)]).value in db.farms
      && form.valid && !TagTaken(db.cows, form.tagNumber, None)
    ensures s == Ok && p.user.role == Agent ==>
      db.farms[Ownership.ActiveFarmForFarmer(db.enrollments, db.users[CowCreateOwner(p, form)]).value].agent == p.user.id
    ensures s == Ok <==>
      && p.Known? && p.user.role != Unassigned && (p.user.role == Farmer || Truthy(form.farmer))
      && HasRole(db.users, CowCreateOwner(p, form), Farmer)
      && Ownership.ActiveFarmForFarmer(db.enrollments, db.users[CowCreateOwner(p, form)]).Some?
      && Ownership.ActiveFarmForFarmer(db.enrollments, db.users[CowCreateOwner(p, form)]).value in db.farms
      && (p.user.role == Agent ==>
            db.farms[Ownership.ActiveFarmForFarmer(db.enrollments, db.users[CowCreateOwner(p, form)]).value].agent == p.user.id)
      && form.valid && !TagTaken(db.cows, form.tagNumber, None)
  {
    if !AuthenticatedOrReadOnly(p, Post) then Denied(p)
    else
      var u := p.user;
      if Ownership.IsFarmer(u) then
        var farm := Ownership.ActiveFarmForFarmer(db.enrollments, u);
        Ownership.ActiveFarmExists(db, u);
        if farm.None? then BadRequest
        else if !form.valid || TagTaken(db.cows, form.tagNumber, None) then BadRequest
        else Ok
      else if Ownership.IsAgent(u) || Ownership.IsAdmin(u) then
        if !Truthy(form.farmer) then BadRequest
        else if !HasRole(db.users, form.farmer.value, Farmer) then NotFound
        else
          var farmer := db.users[form.farmer.value];
          var farm := Ownership.ActiveFarmForFarmer(db.enrollments, farmer);
          Ownership.ActiveFarmExists(db, farmer);
          if farm.None? then BadRequest
          else if Ownership.IsAgent(u) && !Ownership.AgentOwnsFarm(u, db.farms[farm.value]) then Forbidden
          else if !form.valid || TagTaken(db.cows, form.tagNumber, None) then BadRequest
          else Ok
      else Forbidden
  }

  /** An agent cannot add a cow for a farmer whose active farm is not theirs. */
  lemma AgentCowOnlyOnOwnFarm(db: Db, p: Principal, form: CowForm)
    requires DbValid(db) && RequesterIn(db.users, p)
    requires p.Known? && p.user.role == Agent && Truthy(form.farmer) && HasRole(db.users, form.farmer.value, Farmer)
    requires Ownership.ActiveFarmForFarmer(db.enrollments, db.users[form.farmer.value]).Some?
    ensures var f := Ownership.ActiveFarmForFarmer(db.enrollments, db.users[form.farmer.value]).value;
      f in db.farms && (db.farms[f].agent != p.user.id ==> CowCreateStatus(db, p, form) == Forbidden)
  {
    var farmer := db.users[form.farmer.value];
    Ownership.ActiveFarmExists(db, farmer);
    assert AuthenticatedOrReadOnly(p, Post) && Ownership.IsAgent(p.user) && !Ownership.IsFarmer(p.user);
    var farm := Ownership.ActiveFarmForFarmer(db.enrollments, farmer);
    if db.farms[farm.value].agent != p.user.id {
      assert !Ownership.AgentOwnsFarm(p.user, db.farms[farm.value]);
    }
  }

  /** The links an admin's cow update asks for: a named farmer must be a
      farmer (404) and brings the cow to their active farm, or leaves it on
      its farm when they have none; a named farm must exist (404) and wins. */
  function CowRelink(db: Db, cow: Cow, form: CowForm): (r: Result<(Id, Id), Status>)
    requires DbValid(db) && cow.farm in db.farms
    ensures r.Failure? ==> r.error == NotFound
    ensures r.Success? ==> HasRole(db.users, r.value.0, Farmer) || (form.farmer.None? && r.value.0 == cow.farmer)
    ensures r.Success? ==> r.value.1 in db.farms
    ensures r.Success? && form.farmer.None? ==> r.value.0 == cow.farmer
    ensures r.Success? && form.farmer.Some? ==> r.value.0 == form.farmer.value
    ensures r.Success? && form.farm.Some? ==> r.value.1 == form.farm.value
    ensures r.Success? && form.farmer.None? && form.farm.None? ==> r.value == (cow.farmer, cow.farm)
  {
    if form.farmer.Some? && !HasRole(db.users, form.farmer.value, Farmer) then Failure(NotFound)
    else if form.farm.Some? && form.farm.value !in db.farms then Failure(NotFound)
    else
      var farmer := form.farmer.GetOr(cow.farmer);
      var farm :=
        if form.farm.Some? then form.farm.value
        else if form.farmer.Some? then
          Ownership.ActiveFarmExists(db, db.users[farmer]);
          Ownership.ActiveFarmForFarmer(db.enrollments, db.users[farmer]).GetOr(cow.farm)
        else cow.farm;
      Success((farmer, farm))
  }

  /** `cow_detail` on PUT. */
  function CowUpdateStatus(db: Db, p: Principal, id: Id, form: CowForm): (s: Status)
    requires DbValid(db)
    ensures p.Anonymous? ==> s == Unauthenticated
    ensures p.Known? && id !in db.cows ==> s == NotFound
    ensures p.Known? && id in db.cows && !Ownership.CowAccessOk(p.user, db.cows[id], db.farms[db.cows[id].farm]) ==> s == Forbidden
    ensures s == Ok ==>
      && p.Known? && id in db.cows && Ownership.CowAccessOk(p.user, db.cows[id], db.farms[db.cows[id].farm])
      && form.valid && !TagTaken(db.cows, form.tagNumber, Some(id))
    ensures s == Ok && p.user.role == Admin ==> CowRelink(db, db.cows[id], form).Success?
    ensures s == NotFound && p.Known? && id in db.cows ==> p.user.role == Admin
    ensures s == Ok <==>
      && p.Known? && id in db.cows && Ownership.CowAccessOk(p.user, db.cows[id], db.farms[db.cows[id].farm])
      && form.valid && !TagTaken(db.cows, form.tagNumber, Some(id))
      && (p.user.role == Admin ==> CowRelink(db, db.cows[id], form).Success?)
  {
    if !AuthenticatedOrReadOnly(p, Put) then Denied(p)
    else if id !in db.cows then NotFound
    else
      var cow := db.cows[id];
      if !Ownership.CowAccessOk(p.user, cow, db.farms[cow.farm]) then Forbidden
      else if !form.valid || TagTaken(db.cows, form.tagNumber, Some(id)) then BadRequest
      else if Ownership.IsAdmin(p.user) && CowRelink(db, cow, form).Failure? then NotFound
      else Ok
  }

  /** The farmer and farm the updated cow keeps: an admin's relinking, or,
      for anyone else, the cow's own (their farmer and farm fields are
      dropped). */
  function CowUpdateLinks(db: Db, p: Principal, id: Id, form: CowForm): (links: (Id, Id))
    requires DbValid(db) && CowUpdateStatus(db, p, id, form) == Ok
    ensures p.user.role != Admin ==> links == (db.cows[id].farmer, db.cows[id].farm)
    ensures HasRole(db.users, links.0, Farmer) && links.1 in db.farms
  {
    var cow := db.cows[id];
    if Ownership.IsAdmin(p.user) then CowRelink(db, cow, form).value else (cow.farmer, cow.farm)
  }

  /** `cow_detail` on DELETE. */
  function CowDeleteStatus(db: Db, p: Principal, id: Id): (s: Status)
    requires DbValid(db)
    ensures p.Anonymous? ==> s == Unauthenticated
    ensures p.Known? && id !in db.cows ==> s == NotFound
    ensures s == Ok <==> p.Known? && id in db.cows && Ownership.CowAccessOk(p.user, db.cows[id], db.farms[db.cows[id].farm])
    ensures s != Ok ==> s == Denied(p) || s == NotFound
  {
    if !AuthenticatedOrReadOnly(p, Delete) then Denied(p)
    else if id !in db.cows then NotFound
    else if !Ownership.CowAccessOk(p.user, db.cows[id], db.farms[db.cows[id].farm]) then Forbidden
    else Ok
  }

  // ----- Milk records -----

  /** The serializer's field checks on a milk form: the other fields, and a
      cow that exists. */
  predicate MilkFieldsOk(db: Db, form: MilkForm) {
    form.valid && form.cow.Some? && form.cow.value in db.cows
  }

  /** `milkproduction_list_create` on POST, with the request passed to the
      serializer so that its farmer-owns-cow check runs. */
  function MilkCreateStatus(db: Db, p: Principal, form: MilkForm): (s: Status)
    ensures !(p.Known? && p.user.role in {Farmer, Admin}) ==> s == Denied(p)
    ensures s == Ok ==> MilkFieldsOk(db, form) && !MilkDayTaken(db.milk, form.cow.value, form.date, None)
    ensures s == Ok && p.user.role == Farmer ==> db.cows[form.cow.value].farmer == p.user.id
    ensures s != Ok && p.Known? && p.user.role in {Farmer, Admin} ==> s == BadRequest
  {
    if !PostFarmerOrAdminElseAuth(p, Post) then Denied(p)
    else if !MilkFieldsOk(db, form) || MilkDayTaken(db.milk, form.cow.value, form.date, None) then BadRequest
    else if !ValidateMilk(Some(p), Some(db.cows[form.cow.value]), None) then BadRequest
    else Ok
  }

  /** The same handler as written: the serializer gets no request, so its
      farmer-owns-cow check never refuses. */
  function MilkCreateStatusAsWritten(db: Db, p: Principal, form: MilkForm): (s: Status)
    ensures !(p.Known? && p.user.role in {Farmer, Admin}) ==> s == Denied(p)
    ensures s == Ok <==>
      && p.Known? && p.user.role in {Farmer, Admin} && MilkFieldsOk(db, form)
      && !MilkDayTaken(db.milk, form.cow.value, form.date, None)
  {
    if !PostFarmerOrAdminElseAuth(p, Post) then Denied(p)
    else if !MilkFieldsOk(db, form) || MilkDayTaken(db.milk, form.cow.value, form.date, None) then BadRequest
    else if !ValidateMilk(None, Some(db.cows[form.cow.value]), None) then BadRequest
    else Ok
  }

  /** As written, a farmer records milk for another farmer's cow; with the
      request in context the same request is refused. The two agree for an
      admin and for a farmer's own cow. */
  lemma MilkCreateAsWrittenSkipsOwnership(db: Db, p: Principal, form: MilkForm)
    ensures p.Known? && p.user.role == Farmer && MilkFieldsOk(db, form) &&
      !MilkDayTaken(db.milk, form.cow.value, form.date, None) && db.cows[form.cow.value].farmer != p.user.id
      ==> MilkCreateStatusAsWritten(db, p, form) == Ok && MilkCreateStatus(db, p, form) == BadRequest
    ensures !(p.Known? && p.user.role == Farmer) ==> MilkCreateStatusAsWritten(db, p, form) == MilkCreateStatus(db, p, form)
    ensures MilkFieldsOk(db, form) && p.Known? && db.cows[form.cow.value].farmer == p.user.id ==>
      MilkCreateStatusAsWritten(db, p, form) == MilkCreateStatus(db, p, form)
  {
  }

  /** `milkproduction_detail` on PUT, with the request in context: the
      submitted cow must be a farmer requester's own. */
  function MilkUpdateStatus(db: Db, p: Principal, id: Id, form: MilkForm): (s: Status)
    requires DbValid(db)
    ensures p.Anonymous? ==> s == Unauthenticated
    ensures p.Known? && id !in db.milk ==> s == NotFound
    ensures p.Known? && id in db.milk && !CanEditRecord(p.user, db.milk[id].recordedBy) ==> s == Forbidden
    ensures p.Known? && p.user.role == Agent && id in db.milk ==> s == Forbidden
    ensures s == Ok ==>
      && p.Known? && id in db.milk && CanEditRecord(p.user, db.milk[id].recordedBy)
      && MilkFieldsOk(db, form) && !MilkDayTaken(db.milk, form.cow.value, form.date, Some(id))
    ensures s == Ok && p.user.role == Farmer ==> db.cows[form.cow.value].farmer == p.user.id
  {
    if !AuthenticatedOrReadOnly(p, Put) then Denied(p)
    else if id !in db.milk then NotFound
    else
      var rec := db.milk[id];
      if !CanEditRecord(p.user, rec.recordedBy) then Forbidden
      else if !MilkFieldsOk(db, form) || MilkDayTaken(db.milk, form.cow.value, form.date, Some(id)) then BadRequest
      else if !ValidateMilk(Some(p), Some(db.cows[form.cow.value]), Some(db.cows[rec.cow])) then BadRequest
      else Ok
  }

  /** The same handler as written: the serializer gets no request, so a
      farmer who recorded a milk entry may move it onto another farmer's cow. */
  function MilkUpdateStatusAsWritten(db: Db, p: Principal, id: Id, form: MilkForm): (s: Status)
    requires DbValid(db)
    ensures s == Ok <==>
      && p.Known? && id in db.milk && CanEditRecord(p.user, db.milk[id].recordedBy)
      && MilkFieldsOk(db, form) && !MilkDayTaken(db.milk, form.cow.value, form.date, Some(id))
  {
    if !AuthenticatedOrReadOnly(p, Put) then Denied(p)
    else if id !in db.milk then NotFound
    else
      var rec := db.milk[id];
      if !CanEditRecord(p.user, rec.recordedBy) then Forbidden
      else if !MilkFieldsOk(db, form) || MilkDayTaken(db.milk, form.cow.value, form.date, Some(id)) then BadRequest
      else if !ValidateMilk(None, Some(db.cows[form.cow.value]), Some(db.cows[rec.cow])) then BadRequest
      else Ok
  }

  /** As written, the recording farmer moves their entry onto a cow that is
      not theirs; with the request in context that update is refused. Both
      agree for an admin and on the farmer's own cows. */
  lemma MilkUpdateAsWrittenSkipsOwnership(db: Db, p: Principal, id: Id, form: MilkForm)
    requires DbValid(db)
    ensures
      && MilkUpdateStatusAsWritten(db, p, id, form) == Ok && p.user.role == Farmer
      && db.cows[form.cow.value].farmer != p.user.id
      ==> MilkUpdateStatus(db, p, id, form) == BadRequest
    ensures !(p.Known? && p.user.role == Farmer) ==> MilkUpdateStatusAsWritten(db, p, id, form) == MilkUpdateStatus(db, p, id, form)
    ensures MilkFieldsOk(db, form) && p.Known? && db.cows[form.cow.value].farmer == p.user.id ==>
      MilkUpdateStatusAsWritten(db, p, id, form) == MilkUpdateStatus(db, p, id, form)
  {
  }

  /** `milkproduction_detail` on DELETE. */
  function MilkDeleteStatus(db: Db, p: Principal, id: Id): (s: Status)
    ensures p.Anonymous? ==> s == Unauthenticated
    ensures p.Known? && id !in db.milk ==> s == NotFound
    ensures s == Ok <==> p.Known? && id in db.milk && CanEditRecord(p.user, db.milk[id].recordedBy)
    ensures p.Known? && p.user.role == Agent ==> s != Ok
  {
    if !AuthenticatedOrReadOnly(p, Delete) then Denied(p)
    else if id !in db.milk then NotFound
    else if !CanEditRecord(p.user, db.milk[id].recordedBy) then Forbidden
    else Ok
  }

  // ----- Activities -----

  predicate ActivityFieldsOk(db: Db, form: ActivityForm) {
    form.valid && form.cow.Some? && form.cow.value in db.cows
  }

  /** `activity_list_create` on POST: farmers and admins; no check that the
      cow is the requester's. */
  function ActivityCreateStatus(db: Db, p: Principal, form: ActivityForm): (s: Status)
    ensures !(p.Known? && p.user.role in {Farmer, Admin}) ==> s == Denied(p)
    ensures s == Ok <==> p.Known? && p.user.role in {Farmer, Admin} && ActivityFieldsOk(db, form)
  {
    if !PostFarmerOrAdminElseAuth(p, Post) then Denied(p)
    else if !ActivityFieldsOk(db, form) then BadRequest
    else Ok
  }

  /** `activity_detail` on PUT. */
  function ActivityUpdateStatus(db: Db, p: Principal, id: Id, form: ActivityForm): (s: Status)
    ensures p.Anonymous? ==> s == Unauthenticated
    ensures p.Known? && id !in db.activities ==> s == NotFound
    ensures p.Known? && p.user.role == Agent && id in db.activities ==> s == Forbidden
    ensures s == Ok <==>
      p.Known? && id in db.activities && CanEditRecord(p.user, db.activities[id].recordedBy) && ActivityFieldsOk(db, form)
  {
    if !AuthenticatedOrReadOnly(p, Put) then Denied(p)
    else if id !in db.activities then NotFound
    else if !CanEditRecord(p.user, db.activities[id].recordedBy) then Forbidden
    else if !ActivityFieldsOk(db, form) then BadRequest
    else Ok
  }

  /** `activity_detail` on DELETE. */
  function ActivityDeleteStatus(db: Db, p: Principal, id: Id): (s: Status)
    ensures p.Anonymous? ==> s == Unauthenticated
    ensures p.Known? && id !in db.activities ==> s == NotFound
    ensures s == Ok <==> p.Known? && id in db.activities && CanEditRecord(p.user, db.activities[id].recordedBy)
    ensures p.Known? && p.user.role == Agent ==> s != Ok
  {
    if !AuthenticatedOrReadOnly(p, Delete) then Denied(p)
    else if id !in db.activities then NotFound
    else if !CanEditRecord(p.user, db.activities[id].recordedBy) then Forbidden
    else Ok
  }

  // ----- Enrollments -----

  /** The serializer's field checks on an enrollment's user and farm: the
      user must be a farmer (the field only accepts farmers) and the farm must
      exist. */
  predicate EnrollmentTargetsOk(db: Db, user: Option<Id>, farm: Option<Id>) {
    user.Some? && HasRole(db.users, user.value, Farmer) && farm.Some? && farm.value in db.farms
  }

  /** `enrollment_list_create` on POST: admins and agents; the serializer
      (with the request in context) checks the fields, the unique pair, and
      that an agent enrolls into their own farm. The view's own later 403 for
      an agent's foreign farm cannot be reached: validation has already
      answered 400. */
  function EnrollmentCreateStatus(db: Db, p: Principal, form: EnrollmentForm): (s: Status)
    ensures !(p.Known? && p.user.role in {Admin, Agent}) ==> s == Denied(p)
    ensures p.Known? && p.user.role in {Admin, Agent} ==> s != Forbidden
    ensures s == Ok ==>
      && form.valid && EnrollmentTargetsOk(db, form.user, form.farm)
      && !EnrollmentTaken(db.enrollments, form.user.value, form.farm.value, None)
    ensures s == Ok && p.user.role == Agent ==> db.farms[form.farm.value].agent == p.user.id
    ensures s == Ok <==>
      && p.Known? && p.user.role in {Admin, Agent}
      && form.valid && EnrollmentTargetsOk(db, form.user, form.farm)
      && !EnrollmentTaken(db.enrollments, form.user.value, form.farm.value, None)
      && (p.user.role == Agent ==> db.farms[form.farm.value].agent == p.user.id)
  {
    if !PostAdminOrAgentElseAuth(p, Post) then Denied(p)
    else if !form.valid || !EnrollmentTargetsOk(db, form.user, form.farm) then BadRequest
    else if EnrollmentTaken(db.enrollments, form.user.value, form.farm.value, None) then BadRequest
    else if ValidateEnrollment(Some(p), db.users[form.user.value], db.farms[form.farm.value]).Reject? then BadRequest
    else Ok
  }

  /** The user and farm an enrollment update targets: an agent's are dropped
      and the enrollment keeps its own; an admin's are taken as sent. */
  function EnrollmentUpdateTargets(db: Db, p: Principal, id: Id, form: EnrollmentForm): (t: (Option<Id>, Option<Id>))
    requires p.Known? && id in db.enrollments
    ensures p.user.role != Admin ==> t == (Some(db.enrollments[id].user), Some(db.enrollments[id].farm))
    ensures p.user.role == Admin ==> t == (form.user, form.farm)
  {
    if Ownership.IsAdmin(p.user) then (form.user, form.farm)
    else (Some(db.enrollments[id].user), Some(db.enrollments[id].farm))
  }

  /** `enrollment_detail` on PUT, with the request in context and an agent's
      update keeping the enrollment's user and farm. */
  function EnrollmentUpdateStatus(db: Db, p: Principal, id: Id, form: EnrollmentForm): (s: Status)
    requires DbValid(db)
    ensures p.Anonymous? ==> s == Unauthenticated
    ensures p.Known? && id !in db.enrollments ==> s == NotFound
    ensures p.Known? && id in db.enrollments && !CanManageFarm(p.user, db.farms[db.enrollments[id].farm]) ==> s == Forbidden
    ensures s == Ok ==>
      var t := EnrollmentUpdateTargets(db, p, id, form);
      && CanManageFarm(p.user, db.farms[db.enrollments[id].farm])
      && form.valid && EnrollmentTargetsOk(db, t.0, t.1)
      && !EnrollmentTaken(db.enrollments, t.0.value, t.1.value, Some(id))
    ensures p.Known? && p.user.role == Agent && id in db.enrollments && db.farms[db.enrollments[id].farm].agent == p.user.id ==>
      (s == Ok <==> form.valid)
    ensures s == Ok <==>
      && p.Known? && id in db.enrollments && CanManageFarm(p.user, db.farms[db.enrollments[id].farm])
      && form.valid
      && EnrollmentTargetsOk(db, EnrollmentUpdateTargets(db, p, id, form).0, EnrollmentUpdateTargets(db, p, id, form).1)
      && !EnrollmentTaken(db.enrollments, EnrollmentUpdateTargets(db, p, id, form).0.value,
                          EnrollmentUpdateTargets(db, p, id, form).1.value, Some(id))
  {
    if !AuthenticatedOrReadOnly(p, Put) then Denied(p)
    else if id !in db.enrollments then NotFound
    else if !CanManageFarm(p.user, db.farms[db.enrollments[id].farm]) then Forbidden
    else
      var t := EnrollmentUpdateTargets(db, p, id, form);
      if !form.valid || !EnrollmentTargetsOk(db, t.0, t.1) then BadRequest
      else if EnrollmentTaken(db.enrollments, t.0.value, t.1.value, Some(id)) then BadRequest
      else if ValidateEnrollment(Some(p), db.users[t.0.value], db.farms[t.1.value]).Reject? then BadRequest
      else Ok
  }

  /** The same handler as written: an agent's full update lacks the
      required user and farm it dropped, and the serializer gets no request,
      so its validation always answers "authentication required". */
  function EnrollmentUpdateStatusAsWritten(db: Db, p: Principal, id: Id, form: EnrollmentForm): Status
    requires DbValid(db)
  {
    if !AuthenticatedOrReadOnly(p, Put) then Denied(p)
    else if id !in db.enrollments then NotFound
    else if !CanManageFarm(p.user, db.farms[db.enrollments[id].farm]) then Forbidden
    else if Ownership.IsAgent(p.user) then BadRequest
    else if !form.valid || !EnrollmentTargetsOk(db, form.user, form.farm) then BadRequest
    else if EnrollmentTaken(db.enrollments, form.user.value, form.farm.value, Some(id)) then BadRequest
    else if ValidateEnrollment(None, db.users[form.user.value], db.farms[form.farm.value]).Reject? then BadRequest
    else Ok
  }

  /** As written no enrollment update ever succeeds: whoever passes the
      permission checks gets 400. */
  lemma EnrollmentUpdateNeverSucceedsAsWritten(db: Db, p: Principal, id: Id, form: EnrollmentForm)
    requires DbValid(db)
    ensures EnrollmentUpdateStatusAsWritten(db, p, id, form) != Ok
    ensures p.Known? && id in db.enrollments && CanManageFarm(p.user, db.farms[db.enrollments[id].farm]) ==>
      EnrollmentUpdateStatusAsWritten(db, p, id, form) == BadRequest
  {
  }

  /** `enrollment_detail` on DELETE. */
  function EnrollmentDeleteStatus(db: Db, p: Principal, id: Id): (s: Status)
    requires DbValid(db)
    ensures p.Anonymous? ==> s == Unauthenticated
    ensures p.Known? && id !in db.enrollments ==> s == NotFound
    ensures s == Ok <==> p.Known? && id in db.enrollments && CanManageFarm(p.user, db.farms[db.enrollments[id].farm])
  {
    if !AuthenticatedOrReadOnly(p, Delete) then Denied(p)
    else if id !in db.enrollments then NotFound
    else if !CanManageFarm(p.user, db.farms[db.enrollments[id].farm]) then Forbidden
    else Ok
  }

  /** What a permitted enrollment delete does: an agent only deactivates the
      enrollment, an admin removes it. */
  function EnrollmentDeleteEffect(db: Db, p: Principal, id: Id): (d: Db)
    requires DbValid(db) && p.Known? && id in db.enrollments
    ensures p.user.role == Agent ==> d.enrollments == db.enrollments[id := db.enrollments[id].(isActive := false)]
    ensures p.user.role != Agent ==> d.enrollments == db.enrollments - {id}
    ensures d.(enrollments := db.enrollments) == db
  {
    if Ownership.IsAgent(p.user) then PutEnrollment(db, db.enrollments[id].(isActive := false))
    else RemoveEnrollment(db, id)
  }
}
