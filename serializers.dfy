/** The serializer rules of the API: the request forms the handlers read,
    the registration checks, the farmer-owns-cow check on milk records, the
    enrollment checks, and how a validated form becomes a row (defaults, and
    the recorder that the server forces). Field-level validation of the
    columns this model does not carry (birth date, e-mail, ...) is summed up
    by each form's `valid` flag. */
module Serializers {
  import opened Collections
  import opened Models
  import opened Permissions
  import Ownership

  // ----- Request forms -----

  /** The body of a user-creating request (UserSerializer). */
  datatype UserForm = UserForm(username: string, valid: bool)

  /** The body of a registration request. `role` is none when the field is
      omitted; `Unassigned` stands for a value outside the three choices. */
  datatype RegistrationForm = RegistrationForm(
    username: string, password: string, password2: string, role: Option<Role>, valid: bool)

  /** The body of a farm request; `agent` is read from the raw request data
      because the serializer's own agent field is read-only. */
  datatype FarmForm = FarmForm(name: string, location: string, isActive: Option<bool>, agent: Option<Id>, valid: bool)

  /** The body of a cow request; `farmer` and `farm` are read from the raw
      request data (present or absent), the serializer's fields being read-only. */
  datatype CowForm = CowForm(
    tagNumber: string, breed: string, isActive: Option<bool>,
    farmer: Option<Id>, farm: Option<Id>, valid: bool)

  /** The body of a milk-record request. `recordedBy` is whatever the client
      sent; the serializer declares the field read-only. */
  datatype MilkForm = MilkForm(cow: Option<Id>, date: Date, quantity: real, recordedBy: Option<Id>, valid: bool)

  /** The body of an activity request; `recordedBy` as for milk records. */
  datatype ActivityForm = ActivityForm(
    cow: Option<Id>, activityType: string, date: Date, recordedBy: Option<Id>, valid: bool)

  /** The body of an enrollment request; every column with a model default may
      be omitted. */
  datatype EnrollmentForm = EnrollmentForm(
    user: Option<Id>, farm: Option<Id>,
    isActive: Option<bool>, progress: Option<int>, isCompleted: Option<bool>,
    totalYield: Option<real>, isCertificateReady: Option<bool>, enrolledAt: Option<Time>,
    valid: bool)

  /** The outcome of a `validate` hook: accepted, or a validation error. */
  datatype Verdict<E> = Accept | Reject(reason: E)

  // ----- RegistrationSerializer -----

  datatype RegistrationError =
    | InvalidFields        // a field outside this model failed
    | UsernameInUse
    | PasswordTooShort
    | InvalidRoleChoice
    | PasswordMismatch
    | AdminSelfRegistration
    | AgentSignupDisabled

  /** The role a registration asks for: an omitted role means farmer. */
  function RequestedRole(form: RegistrationForm): Role {
    form.role.GetOr(Farmer)
  }

  /** Field validation first (the other fields, username uniqueness, the
      eight-character password minimum, the role choice), then `validate`:
      matching passwords, no admin self-registration, and agent sign-up only
      while it is allowed or for a staff requester. On success, the role the
      new account gets. */
  function ValidateRegistration(users: map<Id, User>, form: RegistrationForm, allowAgentSelfSignup: bool, requester: Principal)
    : (r: Result<Role, RegistrationError>)
    ensures r.Success? ==> r.value == RequestedRole(form) && (r.value == Farmer || r.value == Agent)
    ensures r.Success? ==> |form.password| >= 8 && form.password == form.password2 && !UsernameTaken(users, form.username)
    ensures form.password != form.password2 ==> r.Failure?
    ensures |form.password| < 8 ==> r.Failure?
    ensures form.role == Some(Admin) ==> r.Failure?
    ensures RequestedRole(form) == Agent && !allowAgentSelfSignup && !(requester.Known? && requester.user.isStaff) ==> r.Failure?
    ensures r.Failure? && r.error == AgentSignupDisabled ==> RequestedRole(form) == Agent && !allowAgentSelfSignup
  {
    if !form.valid then Failure(InvalidFields)
    else if UsernameTaken(users, form.username) then Failure(UsernameInUse)
    else if |form.password| < 8 then Failure(PasswordTooShort)
    else if form.role == Some(Unassigned) then Failure(InvalidRoleChoice)
    else if form.password != form.password2 then Failure(PasswordMismatch)
    else if RequestedRole(form) == Admin then Failure(AdminSelfRegistration)
    else if RequestedRole(form) == Agent && !allowAgentSelfSignup && !(requester.Known? && requester.user.isStaff)
    then Failure(AgentSignupDisabled)
    else
      assert RequestedRole(form) != Unassigned;
      Success(RequestedRole(form))
  }

  /** With the default setting (agent sign-up allowed) the requester plays no
      part: an anonymous visitor may register as a farmer or an agent. */
  lemma RegistrationIgnoresRequesterByDefault(users: map<Id, User>, form: RegistrationForm, p: Principal, q: Principal)
    ensures ValidateRegistration(users, form, true, p) == ValidateRegistration(users, form, true, q)
    ensures ValidateRegistration(users, form, true, Anonymous).Success? <==>
      && form.valid && !UsernameTaken(users, form.username) && |form.password| >= 8
      && form.password == form.password2 && (RequestedRole(form) == Farmer || RequestedRole(form) == Agent)
  {
  }

  /** Turning the setting off only takes agent sign-ups away from non-staff
      requesters; everything else is decided the same way. */
  lemma AgentSignupSettingOnlyAffectsAgents(users: map<Id, User>, form: RegistrationForm, p: Principal)
    ensures RequestedRole(form) != Agent ==>
      ValidateRegistration(users, form, false, p) == ValidateRegistration(users, form, true, p)
    ensures p.Known? && p.user.isStaff ==>
      ValidateRegistration(users, form, false, p) == ValidateRegistration(users, form, true, p)
    ensures ValidateRegistration(users, form, false, p).Success? ==> ValidateRegistration(users, form, true, p).Success?
  {
  }

  // ----- MilkProductionSerializer.validate -----

  /** The cow a milk record is validated against: the submitted one, or else
      the cow of the record being updated. */
  function ChosenCow(submitted: Option<Cow>, instanceCow: Option<Cow>): (cow: Option<Cow>)
    ensures submitted.Some? ==> cow == submitted
    ensures submitted.None? ==> cow == instanceCow
  {
    if submitted.Some? then submitted else instanceCow
  }

  /** `validate` with `request` the request in the serializer's context (none
      when the view passed no context): a farmer requester may only name one
      of their own cows; anyone else, and a serializer without a request,
      passes. */
  function ValidateMilk(request: Option<Principal>, submitted: Option<Cow>, instanceCow: Option<Cow>): (ok: bool)
    ensures request.None? ==> ok
    ensures request.Some? && request.value.Known? && request.value.user.role == Farmer && ChosenCow(submitted, instanceCow).Some?
      ==> (ok <==> ChosenCow(submitted, instanceCow).value.farmer == request.value.user.id)
    ensures !(request.Some? && request.value.Known? && request.value.user.role == Farmer) ==> ok
    ensures ChosenCow(submitted, instanceCow).None? ==> ok
  {
    match request
    case None => true
    case Some(p) =>
      var cow := ChosenCow(submitted, instanceCow);
      !(p.Known? && p.user.role == Farmer && cow.Some? && cow.value.farmer != p.user.id)
  }

  /** For a farmer with a request in context, the milk check is exactly the
      cow access rule of the views. */
  lemma MilkCheckIsCowAccess(u: User, cow: Cow, farm: Farm, instanceCow: Option<Cow>)
    requires u.role == Farmer && farm.id == cow.farm
    ensures ValidateMilk(Some(Known(u)), Some(cow), instanceCow) == Ownership.CowAccessOk(u, cow, farm)
    ensures instanceCow == Some(cow) ==> ValidateMilk(Some(Known(u)), None, instanceCow) == Ownership.CowAccessOk(u, cow, farm)
  {
  }

  // ----- EnrollmentSerializer.validate -----

  datatype EnrollmentError = AuthenticationRequired | NotAFarmer | NotOwnFarm

  /** `validate` with `request` the request in context (none when the view
      passed no context): the requester must be authenticated, the enrolled
      user must be a farmer, and an agent requester must own the farm. */
  function ValidateEnrollment(request: Option<Principal>, user: User, farm: Farm): (v: Verdict<EnrollmentError>)
    ensures !(request.Some? && request.value.Known?) ==> v == Reject(AuthenticationRequired)
    ensures request.Some? && request.value.Known? && user.role != Farmer ==> v == Reject(NotAFarmer)
    ensures v.Accept? <==>
      && request.Some? && request.value.Known? && user.role == Farmer
      && (request.value.user.role == Agent ==> farm.agent == request.value.user.id)
  {
    if request.None? || request.value.Anonymous? then Reject(AuthenticationRequired)
    else if user.role != Farmer then Reject(NotAFarmer)
    else if request.value.user.role == Agent && farm.agent != request.value.user.id then Reject(NotOwnFarm)
    else Accept
  }

  /** An agent whose enrollment passes validation owns the farm, so the
      view's later "not your farm" refusal never fires; and without a request
      in context validation always fails. */
  lemma EnrollmentValidationCoversOwnership(u: User, user: User, farm: Farm)
    ensures ValidateEnrollment(Some(Known(u)), user, farm).Accept? && u.role == Agent ==> Ownership.AgentOwnsFarm(u, farm)
    ensures ValidateEnrollment(Some(Known(u)), user, farm).Accept? && u.role == Admin <==> user.role == Farmer && u.role == Admin
    ensures ValidateEnrollment(None, user, farm).Reject?
  {
  }

  // ----- Building rows from validated forms -----

  /** A new farm: omitted `is_active` means active. The agent is the one
      the view passes to `save`. */
  function NewFarm(id: Id, form: FarmForm, agent: Id): Farm {
    Farm(id, form.name, form.location, agent, form.isActive.GetOr(true))
  }

  /** An updated farm, with the agent the view passes to `save`. */
  function UpdatedFarm(f: Farm, form: FarmForm, agent: Id): Farm {
    f.(name := form.name, location := form.location, isActive := form.isActive.GetOr(f.isActive), agent := agent)
  }

  /** A new cow with the farmer and farm the view passes to `save`. */
  function NewCow(id: Id, form: CowForm, farmer: Id, farm: Id): Cow {
    Cow(id, form.tagNumber, form.breed, farm, farmer, form.isActive.GetOr(true))
  }

  /** An updated cow with the farmer and farm the view passes to `save`. */
  function UpdatedCow(c: Cow, form: CowForm, farmer: Id, farm: Id): Cow {
    c.(tagNumber := form.tagNumber, breed := form.breed, isActive := form.isActive.GetOr(c.isActive),
       farmer := farmer, farm := farm)
  }

  /** ActivitySerializer.create: the recorder is the requester, whatever the
      body says. */
  function NewActivity(id: Id, form: ActivityForm, cow: Id, requester: User, now: Time): Activity {
    Activity(id, form.activityType, form.date, cow, requester.id, now)
  }

  lemma ActivityCreateForcesRecorder(id: Id, form: ActivityForm, cow: Id, requester: User, now: Time, claimed: Option<Id>)
    ensures NewActivity(id, form, cow, requester, now).recordedBy == requester.id
    ensures NewActivity(id, form.(recordedBy := claimed), cow, requester, now) == NewActivity(id, form, cow, requester, now)
  {
  }

  /** A milk record made by the create view: the recorder is the requester
      (the serializer's recorder field is read-only, so the admin branch's
      fallback is the requester too). */
  function NewMilk(id: Id, form: MilkForm, cow: Id, requester: User, now: Time): MilkProduction {
    MilkProduction(id, form.date, form.quantity, cow, requester.id, now)
  }

  lemma MilkCreateForcesRecorder(id: Id, form: MilkForm, cow: Id, requester: User, now: Time, claimed: Option<Id>)
    ensures NewMilk(id, form, cow, requester, now).recordedBy == requester.id
    ensures NewMilk(id, form.(recordedBy := claimed), cow, requester, now) == NewMilk(id, form, cow, requester, now)
  {
  }

  /** An updated milk record keeps its recorder and creation time. */
  function UpdatedMilk(rec: MilkProduction, form: MilkForm, cow: Id): MilkProduction {
    rec.(date := form.date, quantity := form.quantity, cow := cow)
  }

  /** An updated activity keeps its recorder and creation time. */
  function UpdatedActivity(act: Activity, form: ActivityForm, cow: Id): Activity {
    act.(activityType := form.activityType, date := form.date, cow := cow)
  }

  /** A new enrollment: every omitted column takes the model default. */
  function NewEnrollment(id: Id, user: Id, farm: Id, form: EnrollmentForm, now: Time): Enrollment {
    Enrollment(id, user, farm,
      form.isActive.GetOr(true), form.progress.GetOr(0), form.isCompleted.GetOr(false),
      form.totalYield.GetOr(0.0), form.isCertificateReady.GetOr(false), form.enrolledAt.GetOr(now))
  }

  /** The enrollment made with nothing but its user and farm. */
  function DefaultEnrollment(id: Id, user: Id, farm: Id, now: Time): Enrollment {
    NewEnrollment(id, user, farm, EnrollmentForm(Some(user), Some(farm), None, None, None, None, None, None, true), now)
  }

  /** The model defaults: active, no progress, not completed, no yield, no
      certificate, enrolled now; a supplied column overrides its default. */
  lemma EnrollmentDefaults(id: Id, user: Id, farm: Id, form: EnrollmentForm, now: Time)
    ensures DefaultEnrollment(id, user, farm, now) == Enrollment(id, user, farm, true, 0, false, 0.0, false, now)
    ensures form.isActive.Some? ==> NewEnrollment(id, user, farm, form, now).isActive == form.isActive.value
    ensures form.progress.Some? ==> NewEnrollment(id, user, farm, form, now).progress == form.progress.value
    ensures form.isActive.None? ==> NewEnrollment(id, user, farm, form, now).isActive
  {
  }

  /** An update of an enrollment: a supplied column replaces the stored one,
      an omitted one is kept. */
  function UpdatedEnrollment(e: Enrollment, user: Id, farm: Id, form: EnrollmentForm): Enrollment {
    e.(user := user, farm := farm,
       isActive := form.isActive.GetOr(e.isActive), progress := form.progress.GetOr(e.progress),
       isCompleted := form.isCompleted.GetOr(e.isCompleted), totalYield := form.totalYield.GetOr(e.totalYield),
       isCertificateReady := form.isCertificateReady.GetOr(e.isCertificateReady),
       enrolledAt := form.enrolledAt.GetOr(e.enrolledAt))
  }
}
