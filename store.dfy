/** The database the API views write to, as one object whose tables the
    handlers update in place. Each write handler decides its status on the
    current tables (module Handlers), changes the tables exactly when that
    status is `Ok`, and keeps every rule of the schema. One counter hands
    out the ids of all new rows. */
module Store {
  import opened Collections
  import opened Models
  import opened Permissions
  import Ownership
  import opened Serializers
  import opened Listing
  import opened Transitions
  import opened Handlers

  class Database {
    var users: map<Id, User>
    var farms: map<Id, Farm>
    var cows: map<Id, Cow>
    var milk: map<Id, MilkProduction>
    var activities: map<Id, Activity>
    var enrollments: map<Id, Enrollment>
    /** The id the next new row receives. */
    var nextId: nat

    /** The tables as one value. */
    function Snapshot(): Db
      reads this
    {
      Db(users, farms, cows, milk, activities, enrollments)
    }

    ghost predicate Valid()
      reads this
    {
      Consistent(Snapshot(), nextId)
    }

    /** Writes the tables of `d` and the id counter `next`. */
    method Save(d: Db, next: nat)
      requires Consistent(d, next)
      modifies this
      ensures Snapshot() == d && nextId == next
      ensures Valid()
    {
      users, farms, cows, milk, activities, enrollments := d.users, d.farms, d.cows, d.milk, d.activities, d.enrollments;
      nextId := next;
    }

    /** An empty database. */
    constructor ()
      ensures Valid()
      ensures Snapshot() == Db(map[], map[], map[], map[], map[], map[]) && nextId == 1
    {
      users, farms, cows, milk, activities, enrollments := map[], map[], map[], map[], map[], map[];
      nextId := 1;
    }

    // ----- Users -----

    /** `RegistrationSerializer` validation and `create`: an account with the
        requested role, on success. */
    method Register(p: Principal, form: RegistrationForm, allowAgentSelfSignup: bool) returns (r: Result<Role, RegistrationError>)
      requires Valid()
      modifies this
      ensures Valid()
      ensures r == ValidateRegistration(old(users), form, allowAgentSelfSignup, p)
      ensures r.Success? ==>
        && Snapshot() == AddUser(old(Snapshot()), User(old(nextId), form.username, r.value, false))
        && nextId == old(nextId) + 1
      ensures r.Failure? ==> Snapshot() == old(Snapshot()) && nextId == old(nextId)
    {
      r := ValidateRegistration(users, form, allowAgentSelfSignup, p);
      if r.Success? {
        var u := User(nextId, form.username, r.value, false);
        AddUserKeepsConsistent(Snapshot(), nextId, u);
        Save(AddUser(Snapshot(), u), nextId + 1);
      }
    }

    /** `agent_create`. */
    method AgentCreate(p: Principal, form: UserForm) returns (s: Status)
      requires Valid()
      modifies this
      ensures Valid()
      ensures s == AgentCreateStatus(old(Snapshot()), p, form)
      ensures s == Ok ==>
        && Snapshot() == AddUser(old(Snapshot()), User(old(nextId), form.username, Agent, false))
        && nextId == old(nextId) + 1
      ensures s != Ok ==> Snapshot() == old(Snapshot()) && nextId == old(nextId)
    {
      s := AgentCreateStatus(Snapshot(), p, form);
      if s == Ok {
        var u := User(nextId, form.username, Agent, false);
        AddUserKeepsConsistent(Snapshot(), nextId, u);
        Save(AddUser(Snapshot(), u), nextId + 1);
      }
    }

    /** `farmer_create`: the farmer account and its enrollment in the farm. */
    method FarmerCreate(p: Principal, form: UserForm, farm: Option<Id>, now: Time) returns (s: Status)
      requires Valid()
      modifies this
      ensures Valid()
      ensures s == FarmerCreateStatus(old(Snapshot()), p, form, farm)
      ensures s == Ok ==>
        && Snapshot() == EnrollNewFarmer(old(Snapshot()), old(nextId), form.username, farm.value, now)
        && nextId == old(nextId) + 2
      ensures s != Ok ==> Snapshot() == old(Snapshot()) && nextId == old(nextId)
    {
      s := FarmerCreateStatus(Snapshot(), p, form, farm);
      if s == Ok {
        var db := Snapshot();
        EnrollNewFarmerKeepsConsistent(db, nextId, form.username, farm.value, now);
        Save(EnrollNewFarmer(db, nextId, form.username, farm.value, now), nextId + 2);
      }
    }

    // ----- Farms -----

    /** `farm_list_create` on POST. */
    method FarmCreate(p: Principal, form: FarmForm) returns (s: Status)
      requires Valid() && RequesterIn(users, p)
      modifies this
      ensures Valid()
      ensures s == FarmCreateStatus(old(Snapshot()), p, form)
      ensures s == Ok ==>
        && Snapshot() == PutFarm(old(Snapshot()), NewFarm(old(nextId), form, FarmCreateAgent(p, form)))
        && nextId == old(nextId) + 1
      ensures s != Ok ==> Snapshot() == old(Snapshot()) && nextId == old(nextId)
    {
      var db := Snapshot();
      s := FarmCreateStatus(db, p, form);
      if s == Ok {
        var f := NewFarm(nextId, form, FarmCreateAgent(p, form));
        PutFarmKeepsConsistent(db, nextId, f);
        Save(PutFarm(db, f), nextId + 1);
      }
    }

    /** `farm_detail` on PUT. */
    method FarmUpdate(p: Principal, id: Id, form: FarmForm) returns (s: Status)
      requires Valid()
      modifies this
      ensures Valid()
      ensures s == FarmUpdateStatus(old(Snapshot()), p, id, form)
      ensures s == Ok ==>
        Snapshot() == PutFarm(old(Snapshot()), UpdatedFarm(old(farms)[id], form, FarmUpdateAgent(old(Snapshot()), p, id, form)))
      ensures s != Ok ==> Snapshot() == old(Snapshot())
      ensures nextId == old(nextId)
    {
      var db := Snapshot();
      s := FarmUpdateStatus(db, p, id, form);
      if s == Ok {
        var f := UpdatedFarm(farms[id], form, FarmUpdateAgent(db, p, id, form));
        assert f.id == id;
        PutFarmKeepsConsistent(db, nextId, f);
        Save(PutFarm(db, f), nextId);
      }
    }

    /** `farm_detail` on DELETE: the farm goes, and with it its cows, their
        records and its enrollments. */
    method FarmDelete(p: Principal, id: Id) returns (s: Status)
      requires Valid()
      modifies this
      ensures Valid()
      ensures s == FarmDeleteStatus(old(Snapshot()), p, id)
      ensures s == Ok ==> Snapshot() == DeleteFarm(old(Snapshot()), id)
      ensures s != Ok ==> Snapshot() == old(Snapshot())
      ensures nextId == old(nextId)
    {
      var db := Snapshot();
      s := FarmDeleteStatus(db, p, id);
      if s == Ok {
        var d := DeleteFarm(db, id);
        DeleteFarmKeepsConsistent(db, nextId, id);
        Save(d, nextId);
      }
    }

    // ----- Cows -----

    /** `cow_list_create` on POST: the cow goes on its farmer's active farm. */
    method CowCreate(p: Principal, form: CowForm) returns (s: Status)
      requires Valid() && RequesterIn(users, p)
      modifies this
      ensures Valid()
      ensures s == CowCreateStatus(old(Snapshot()), p, form)
      ensures s == Ok ==>
        var owner := CowCreateOwner(p, form);
        var farm := Ownership.ActiveFarmForFarmer(old(enrollments), old(users)[owner]).value;
        && Snapshot() == PutCow(old(Snapshot()), NewCow(old(nextId), form, owner, farm))
        && nextId == old(nextId) + 1
      ensures s != Ok ==> Snapshot() == old(Snapshot()) && nextId == old(nextId)
    {
      var db := Snapshot();
      s := CowCreateStatus(db, p, form);
      if s == Ok {
        var owner := CowCreateOwner(p, form);
        var farm := Ownership.ActiveFarmForFarmer(enrollments, users[owner]).value;
        var c := NewCow(nextId, form, owner, farm);
        assert !TagTaken(db.cows, c.tagNumber, Some(c.id));
        PutCowKeepsConsistent(db, nextId, c);
        Save(PutCow(db, c), nextId + 1);
      }
    }

    /** `cow_detail` on PUT. */
    method CowUpdate(p: Principal, id: Id, form: CowForm) returns (s: Status)
      requires Valid()
      modifies this
      ensures Valid()
      ensures s == CowUpdateStatus(old(Snapshot()), p, id, form)
      ensures s == Ok ==>
        var links := CowUpdateLinks(old(Snapshot()), p, id, form);
        Snapshot() == PutCow(old(Snapshot()), UpdatedCow(old(cows)[id], form, links.0, links.1))
      ensures s != Ok ==> Snapshot() == old(Snapshot())
      ensures nextId == old(nextId)
    {
      var db := Snapshot();
      s := CowUpdateStatus(db, p, id, form);
      if s == Ok {
        var links := CowUpdateLinks(db, p, id, form);
        var c := UpdatedCow(cows[id], form, links.0, links.1);
        assert c.id == id;
        PutCowKeepsConsistent(db, nextId, c);
        Save(PutCow(db, c), nextId);
      }
    }

    /** `cow_detail` on DELETE: the cow goes, and with it its records. */
    method CowDelete(p: Principal, id: Id) returns (s: Status)
      requires Valid()
      modifies this
      ensures Valid()
      ensures s == CowDeleteStatus(old(Snapshot()), p, id)
      ensures s == Ok ==> Snapshot() == DeleteCow(old(Snapshot()), id)
      ensures s != Ok ==> Snapshot() == old(Snapshot())
      ensures nextId == old(nextId)
    {
      var db := Snapshot();
      s := CowDeleteStatus(db, p, id);
      if s == Ok {
        var d := DeleteCow(db, id);
        DeleteCowKeepsConsistent(db, nextId, id);
        Save(d, nextId);
      }
    }

    // ----- Milk records -----

    /** `milkproduction_list_create` on POST: the requester is the recorder. */
    method MilkCreate(p: Principal, form: MilkForm, now: Time) returns (s: Status)
      requires Valid() && RequesterIn(users, p)
      modifies this
      ensures Valid()
      ensures s == MilkCreateStatus(old(Snapshot()), p, form)
      ensures s == Ok ==>
        && Snapshot() == PutMilk(old(Snapshot()), NewMilk(old(nextId), form, form.cow.value, p.user, now))
        && nextId == old(nextId) + 1
      ensures s != Ok ==> Snapshot() == old(Snapshot()) && nextId == old(nextId)
    {
      var db := Snapshot();
      s := MilkCreateStatus(db, p, form);
      if s == Ok {
        var m := NewMilk(nextId, form, form.cow.value, p.user, now);
        assert !MilkDayTaken(db.milk, m.cow, m.date, Some(m.id));
        PutMilkKeepsConsistent(db, nextId, m);
        Save(PutMilk(db, m), nextId + 1);
      }
    }

    /** `milkproduction_detail` on PUT: the record keeps its recorder. */
    method MilkUpdate(p: Principal, id: Id, form: MilkForm) returns (s: Status)
      requires Valid()
      modifies this
      ensures Valid()
      ensures s == MilkUpdateStatus(old(Snapshot()), p, id, form)
      ensures s == Ok ==> Snapshot() == PutMilk(old(Snapshot()), UpdatedMilk(old(milk)[id], form, form.cow.value))
      ensures s != Ok ==> Snapshot() == old(Snapshot())
      ensures nextId == old(nextId)
    {
      var db := Snapshot();
      s := MilkUpdateStatus(db, p, id, form);
      if s == Ok {
        var m := UpdatedMilk(milk[id], form, form.cow.value);
        assert m.id == id;
        PutMilkKeepsConsistent(db, nextId, m);
        Save(PutMilk(db, m), nextId);
      }
    }

    /** `milkproduction_detail` on DELETE. */
    method MilkDelete(p: Principal, id: Id) returns (s: Status)
      requires Valid()
      modifies this
      ensures Valid()
      ensures s == MilkDeleteStatus(old(Snapshot()), p, id)
      ensures s == Ok ==> Snapshot() == RemoveMilk(old(Snapshot()), id)
      ensures s != Ok ==> Snapshot() == old(Snapshot())
      ensures nextId == old(nextId)
    {
      var db := Snapshot();
      s := MilkDeleteStatus(db, p, id);
      if s == Ok {
        RemoveMilkKeepsConsistent(db, nextId, id);
        Save(RemoveMilk(db, id), nextId);
      }
    }

    // ----- Activities -----

    /** `activity_list_create` on POST: the requester is the recorder. */
    method ActivityCreate(p: Principal, form: ActivityForm, now: Time) returns (s: Status)
      requires Valid() && RequesterIn(users, p)
      modifies this
      ensures Valid()
      ensures s == ActivityCreateStatus(old(Snapshot()), p, form)
      ensures s == Ok ==>
        && Snapshot() == PutActivity(old(Snapshot()), NewActivity(old(nextId), form, form.cow.value, p.user, now))
        && nextId == old(nextId) + 1
      ensures s != Ok ==> Snapshot() == old(Snapshot()) && nextId == old(nextId)
    {
      var db := Snapshot();
      s := ActivityCreateStatus(db, p, form);
      if s == Ok {
        var a := NewActivity(nextId, form, form.cow.value, p.user, now);
        PutActivityKeepsConsistent(db, nextId, a);
        Save(PutActivity(db, a), nextId + 1);
      }
    }

    /** `activity_detail` on PUT: the activity keeps its recorder. */
    method ActivityUpdate(p: Principal, id: Id, form: ActivityForm) returns (s: Status)
      requires Valid()
      modifies this
      ensures Valid()
      ensures s == ActivityUpdateStatus(old(Snapshot()), p, id, form)
      ensures s == Ok ==> Snapshot() == PutActivity(old(Snapshot()), UpdatedActivity(old(activities)[id], form, form.cow.value))
      ensures s != Ok ==> Snapshot() == old(Snapshot())
      ensures nextId == old(nextId)
    {
      var db := Snapshot();
      s := ActivityUpdateStatus(db, p, id, form);
      if s == Ok {
        var a := UpdatedActivity(activities[id], form, form.cow.value);
        assert a.id == id;
        PutActivityKeepsConsistent(db, nextId, a);
        Save(PutActivity(db, a), nextId);
      }
    }

    /** `activity_detail` on DELETE. */
    method ActivityDelete(p: Principal, id: Id) returns (s: Status)
      requires Valid()
      modifies this
      ensures Valid()
      ensures s == ActivityDeleteStatus(old(Snapshot()), p, id)
      ensures s == Ok ==> Snapshot() == RemoveActivity(old(Snapshot()), id)
      ensures s != Ok ==> Snapshot() == old(Snapshot())
      ensures nextId == old(nextId)
    {
      var db := Snapshot();
      s := ActivityDeleteStatus(db, p, id);
      if s == Ok {
        RemoveActivityKeepsConsistent(db, nextId, id);
        Save(RemoveActivity(db, id), nextId);
      }
    }

    // ----- Enrollments -----

    /** `enrollment_list_create` on POST. */
    method EnrollmentCreate(p: Principal, form: EnrollmentForm, now: Time) returns (s: Status)
      requires Valid()
      modifies this
      ensures Valid()
      ensures s == EnrollmentCreateStatus(old(Snapshot()), p, form)
      ensures s == Ok ==>
        && Snapshot() == PutEnrollment(old(Snapshot()), NewEnrollment(old(nextId), form.user.value, form.farm.value, form, now))
        && nextId == old(nextId) + 1
      ensures s != Ok ==> Snapshot() == old(Snapshot()) && nextId == old(nextId)
    {
      var db := Snapshot();
      s := EnrollmentCreateStatus(db, p, form);
      if s == Ok {
        var e := NewEnrollment(nextId, form.user.value, form.farm.value, form, now);
        assert !EnrollmentTaken(db.enrollments, e.user, e.farm, Some(e.id));
        PutEnrollmentKeepsConsistent(db, nextId, e);
        Save(PutEnrollment(db, e), nextId + 1);
      }
    }

    /** `enrollment_detail` on PUT. */
    method EnrollmentUpdate(p: Principal, id: Id, form: EnrollmentForm) returns (s: Status)
      requires Valid()
      modifies this
      ensures Valid()
      ensures s == EnrollmentUpdateStatus(old(Snapshot()), p, id, form)
      ensures s == Ok ==>
        var t := EnrollmentUpdateTargets(old(Snapshot()), p, id, form);
        Snapshot() == PutEnrollment(old(Snapshot()), UpdatedEnrollment(old(enrollments)[id], t.0.value, t.1.value, form))
      ensures s != Ok ==> Snapshot() == old(Snapshot())
      ensures nextId == old(nextId)
    {
      var db := Snapshot();
      s := EnrollmentUpdateStatus(db, p, id, form);
      if s == Ok {
        var t := EnrollmentUpdateTargets(db, p, id, form);
        var e := UpdatedEnrollment(enrollments[id], t.0.value, t.1.value, form);
        assert e.id == id;
        PutEnrollmentKeepsConsistent(db, nextId, e);
        Save(PutEnrollment(db, e), nextId);
      }
    }

    /** `enrollment_detail` on DELETE: an agent deactivates, an admin removes. */
    method EnrollmentDelete(p: Principal, id: Id) returns (s: Status)
      requires Valid()
      modifies this
      ensures Valid()
      ensures s == EnrollmentDeleteStatus(old(Snapshot()), p, id)
      ensures s == Ok ==> Snapshot() == EnrollmentDeleteEffect(old(Snapshot()), p, id)
      ensures s != Ok ==> Snapshot() == old(Snapshot())
      ensures nextId == old(nextId)
    {
      var db := Snapshot();
      s := EnrollmentDeleteStatus(db, p, id);
      if s == Ok {
        var e := enrollments[id];
        if p.user.role == Agent {
          var e' := e.(isActive := false);
          assert !EnrollmentTaken(db.enrollments, e'.user, e'.farm, Some(e'.id));
          PutEnrollmentKeepsConsistent(db, nextId, e');
          Save(PutEnrollment(db, e'), nextId);
        } else {
          RemoveEnrollmentKeepsConsistent(db, nextId, id);
          Save(RemoveEnrollment(db, id), nextId);
        }
      }
    }
  }
}
