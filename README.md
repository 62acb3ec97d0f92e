# FarmHub in Dafny

FarmHub is a Django REST service for dairy farms. It has four roles:

- **admins** see and change everything;
- **agents** manage their own farms and enroll farmers into them;
- **farmers** own cows and record milk yields and activities for them;
- **unassigned** users hold an account with no role.

This project models FarmHub's core and proves properties about it:

- **Schema** (`models.dfy`): users, farms, cows, activities, milk records and enrollments. It covers the rules the schema enforces (unique usernames, tags, one milk record per cow and day, one enrollment per farmer and farm, foreign keys to rows of the right role) and the `CASCADE` deletes.
- **Permission classes** (`permissions.dfy`): the gates the views are wrapped in.
- **Ownership helpers** (`ownership.dfy`): the views' `_farms_managed`, `_active_farm_for_farmer`, `_agent_owns_farm`, `_cow_access_ok` and `_record_access_ok`.
- **Serializer validations** (`serializers.dfy`): registration, milk records and enrollments, plus the rows that create and update build.
- **Read endpoints** (`listing.dfy`): which rows each role sees in a list and which detail requests succeed.
- **Write endpoints** (`handlers.dfy`): the status code each one answers.
- **State changes** (`transitions.dfy`): what a successful write does to the tables, with the proof that every write keeps the schema's rules.
- **Store** (`store.dfy`): the `Database` class. Its fields are the tables and the id counter. Its methods are the write endpoints: each returns the handler's status and changes the tables only when that status is 200/201.
- **Reporting** (`reporting.dfy`): the farm summary, the milk production report and the recent-activities feed.
- **Helpers** (`collections.dfy`): `Option`, `Result`, a deterministic walk over maps, and filtering.

The request's user is a `Principal`: either `Anonymous` or `Known(user)`. An HTTP status is a `Status` value. Timestamps (`now`) are parameters.

## Model

| member | source | states |
|---|---|---|
| Models.HasPermission | FarmHub/core/models.py:19-26 | admins hold every permission; agents exactly `view_farm` and `manage_farm`; farmers exactly `log_activity` and `record_milk`; unassigned users none |
| Models.PermissionsAreLayered | FarmHub/core/models.py:19-26 | no permission is held by both an agent and a farmer, and every permission anyone holds an admin holds too |
| Models.DeleteCowKeepsValid | FarmHub/core/models.py:72-86 | deleting a cow (with its milk records and activities cascading) keeps every schema rule |
| Models.DeleteFarmKeepsValid | FarmHub/core/models.py:56-106 | deleting a farm (cascading to its cows, their records and its enrollments) keeps every schema rule |
| Models.DeleteCowCascades | FarmHub/core/models.py:72-86 | after deleting a cow, exactly the milk records and activities of that cow are gone, and the rest are unchanged |
| Models.DeleteFarmCascades | FarmHub/core/models.py:56-106 | after deleting a farm, exactly its cows, its enrollments and the records of its cows are gone |
| Models.CowsOffFarmOk | FarmHub/core/models.py:56 | cows left after removing a farm's cows still point at existing farms |
| Models.EnrollmentsOffFarmOk | FarmHub/core/models.py:106 | enrollments left after removing a farm's enrollments still point at existing farms |
| Models.MilkOnCowsOk | FarmHub/core/models.py:82 | milk records left on the remaining cows still point at existing cows |
| Models.ActivitiesOnCowsOk | FarmHub/core/models.py:72 | activities left on the remaining cows still point at existing cows |
| Permissions.IsSuperAdmin | FarmHub/core/permissions.py:3-5 | granted exactly for admins |
| Permissions.IsAgent | FarmHub/core/permissions.py:7-9 | granted exactly for agents |
| Permissions.IsFarmer | FarmHub/core/permissions.py:11-13 | granted exactly for farmers |
| Permissions.IsAdminOrAgent | FarmHub/core/permissions.py:15-18 | granted exactly for an authenticated admin or agent, never for a farmer |
| Permissions.IsFarmerOrAdmin | FarmHub/core/permissions.py:20-23 | granted exactly for an authenticated farmer or admin, never for an agent |
| Permissions.AuthenticatedOrReadOnly | FarmHub/core/permissions.py:25-27 | granted exactly when authenticated, even for safe methods, despite its name |
| Permissions.PostAdminOrAgentElseAuth | FarmHub/core/permissions.py:29-36 | anonymous is refused; safe methods pass for any user; other methods only for admins and agents |
| Permissions.PostFarmerOrAdminElseAuth | FarmHub/core/permissions.py:38-45 | anonymous is refused; safe methods pass for any user; other methods only for farmers and admins, never agents |
| Permissions.WriteGatesRefineAuthentication | FarmHub/core/permissions.py:25-45 | both POST gates imply authentication, equal it on safe methods, equal the role classes on writes, and only admins pass both on writes |
| Ownership.FarmsManaged | FarmHub/core/views.py:47-48 | the managed farms are exactly the stored farms whose agent is the user |
| Ownership.OnlyAgentsManageFarms | FarmHub/core/views.py:47-48 | in a valid database a user who is not an agent manages no farm |
| Ownership.LatestActiveEnrollment | FarmHub/core/views.py:52-56 | picks an active enrollment of the user enrolled no earlier than any other, and finds none exactly when the user has no active enrollment |
| Ownership.ActiveFarmForFarmer | FarmHub/core/views.py:50-57 | non-farmers get no farm; a farmer gets none exactly when they have no active enrollment (the `farm` attribute fallback is always absent) |
| Ownership.ActiveFarmIsLatest | FarmHub/core/views.py:50-57 | the farm found is the farm of the user's latest active enrollment |
| Ownership.ActiveFarmExists | FarmHub/core/views.py:50-57 | in a valid database the active farm is a stored farm |
| Ownership.CowAccessOk | FarmHub/core/views.py:63-68 | admins always; agents when they manage the cow's farm; farmers when they own the cow; never unassigned users |
| Ownership.RecordAccessOk | FarmHub/core/views.py:70-77 | as for cows, except that a farmer needs to be the record's recorder rather than the cow's owner |
| Ownership.RecordAndCowAccessDifferOnlyForFarmers | FarmHub/core/views.py:63-77 | the two checks agree for every non-farmer, and for a farmer whenever the recorder is the cow's owner |
| Ownership.FarmerAccessAsymmetry | FarmHub/core/views.py:63-77 | there are farmers who may see a record but not its cow, and farmers who may see a cow but not its record |
| Serializers.ValidateRegistration | FarmHub/core/serializers.py:17-49 | accepted only with matching passwords of at least 8 characters, a free username and role farmer or agent (default farmer); admin is refused; agent is refused when self-signup is off unless a staff user asks |
| Serializers.RegistrationIgnoresRequesterByDefault | FarmHub/core/serializers.py:41-47 | with agent self-signup on (the default), the requester makes no difference and the accepted forms are exactly the well-formed ones |
| Serializers.AgentSignupSettingOnlyAffectsAgents | FarmHub/core/serializers.py:41-47 | the self-signup setting changes nothing for other roles or for staff requesters, and turning it off only refuses more |
| Serializers.ChosenCow | FarmHub/core/serializers.py:99 | the submitted cow wins; otherwise the instance's cow |
| Serializers.ValidateMilk | FarmHub/core/serializers.py:97-105 | with no request in context it accepts everything; a farmer is accepted exactly when the chosen cow is theirs; other roles and a missing cow are accepted |
| Serializers.MilkCheckIsCowAccess | FarmHub/core/serializers.py:97-105 | for a farmer with request context, the milk check is exactly the cow-access rule |
| Serializers.ValidateEnrollment | FarmHub/core/serializers.py:124-139 | without an authenticated requester it rejects; it rejects non-farmer enrollees; otherwise it accepts exactly when an agent requester manages the farm |
| Serializers.EnrollmentValidationCoversOwnership | FarmHub/core/serializers.py:124-139 | an accepted agent request is for a farm the agent owns, an admin request is accepted for any farmer, and no request in context always rejects |
| Serializers.ActivityCreateForcesRecorder | FarmHub/core/serializers.py:75-87 | a new activity is recorded by the requester whatever `recorded_by` the client sent |
| Serializers.MilkCreateForcesRecorder | FarmHub/core/views.py:311 | a new milk record is recorded by the requester whatever `recorded_by` the client sent |
| Serializers.EnrollmentDefaults | FarmHub/core/models.py:107-112 | defaults are active, progress 0, not completed, yield 0 and no certificate; submitted `is_active`/`progress` override them |
| Listing.Denied | FarmHub/core/views.py:40-41 | authenticated refusals get `_err`'s 403; anonymous ones get 401, which is how the framework answers when a permission class such as `AuthenticatedOrReadOnly` (`permissions.py:25-27`) refuses an unauthenticated request |
| Listing.UserList | FarmHub/core/views.py:81-97 | admins see every user; agents themselves and the farmers enrolled on their farms; farmers only themselves; unassigned users are refused |
| Listing.AgentSeesOnlyOwnFarmers | FarmHub/core/views.py:81-97 | another user is in an agent's list exactly when enrolled on a farm the agent manages |
| Listing.FarmList | FarmHub/core/views.py:138-148 | admins see every farm, agents the farms they manage, farmers at most their one active farm |
| Listing.FarmDetail | FarmHub/core/views.py:170-179 | 404 for a missing farm, before the role check; 200 exactly for admins, the managing agent and a farmer whose active farm it is |
| Listing.FarmListMatchesDetail | FarmHub/core/views.py:138-179 | a stored farm is in the caller's list exactly when its detail answers 200 |
| Listing.CowList | FarmHub/core/views.py:210-219 | admins see every cow, agents the cows on their farms, farmers exactly the cows they own |
| Listing.CowDetail | FarmHub/core/views.py:252-257 | 404 for a missing cow; 200 exactly when the cow-access rule allows |
| Listing.CowListMatchesDetail | FarmHub/core/views.py:210-257 | a stored cow is in the caller's list exactly when its detail answers 200 |
| Listing.MilkList | FarmHub/core/views.py:295-306 | admins see every record, agents the records of cows on their farms, farmers exactly the records they recorded |
| Listing.MilkDetail | FarmHub/core/views.py:318-326 | 404 for a missing record; 200 exactly when the record-access rule allows |
| Listing.MilkListMatchesDetail | FarmHub/core/views.py:295-326 | a stored record is in the caller's list exactly when its detail answers 200 |
| Listing.ActivityList | FarmHub/core/views.py:353-364 | admins see every activity, agents those of cows on their farms, farmers exactly those they recorded |
| Listing.ActivityDetail | FarmHub/core/views.py:376-381 | 404 for a missing activity; 200 exactly when the record-access rule allows |
| Listing.ActivityListMatchesDetail | FarmHub/core/views.py:353-381 | a stored activity is in the caller's list exactly when its detail answers 200 |
| Listing.EnrollmentList | FarmHub/core/views.py:408-417 | admins see every enrollment, agents those on their farms, farmers their own |
| Listing.EnrollmentDetail | FarmHub/core/views.py:436-446 | 404 for a missing enrollment; 200 exactly for admins, the farm's agent and the enrolled farmer |
| Listing.EnrollmentListMatchesDetail | FarmHub/core/views.py:408-446 | a stored enrollment is in the caller's list exactly when its detail answers 200 |
| Handlers.CanManageFarm | FarmHub/core/views.py:449 | admins, or the agent who manages the farm; never a farmer |
| Handlers.CanEditRecord | FarmHub/core/views.py:329 | admins always, farmers only for records they recorded, agents and unassigned users never |
| Handlers.EditRightsWithinReadRights | FarmHub/core/views.py:70-77 | whoever may edit a record may read it, and a managing agent may read without being able to edit |
| Handlers.AgentCreateStatus | FarmHub/core/views.py:120-127 | non-admins are refused (401/403); 201 exactly for an admin with a valid form and a free username |
| Handlers.FarmerCreateStatus | FarmHub/core/views.py:99-117 | gate, then 400 without a farm id, 404 for a missing farm, 403 for a farm the requester cannot manage, and 201 exactly when the form is valid and the username free |
| Handlers.FarmCreateStatus | FarmHub/core/views.py:150-164 | only admins and agents; an agent's valid form succeeds (the agent becomes the owner); an admin succeeds exactly with a valid form naming a user who is an agent; 400 when no agent is named, 404 when the named user is not an agent |
| Handlers.FarmUpdateStatus | FarmHub/core/views.py:172-195 | 404 then 403 unless the caller can manage the farm; 200 exactly when the caller can manage the farm, the form is valid, and any agent an admin names is an agent (404 otherwise) |
| Handlers.FarmUpdateAgent | FarmHub/core/views.py:185-194 | only an admin who names an agent changes the farm's agent |
| Handlers.FarmDeleteStatus | FarmHub/core/views.py:197-200 | 200 exactly for a stored farm the caller can manage, otherwise 401/403/404 |
| Handlers.CowCreateStatus | FarmHub/core/views.py:221-246 | a farmer without an active farm gets 400; 201 exactly when the owner (the requesting farmer, or the farmer an agent or admin names) is a farmer with an active farm, an agent requester manages that farm, the form is valid and the tag is free |
| Handlers.AgentCowOnlyOnOwnFarm | FarmHub/core/views.py:231-240 | an agent succeeds only when they manage the named farmer's active farm |
| Handlers.CowRelink | FarmHub/core/views.py:269-276 | the admin's re-link looks up the named farmer and farm (404 when missing), keeping the cow's current links for fields left out |
| Handlers.CowUpdateStatus | FarmHub/core/views.py:259-280 | 404, then 403 unless cow access is allowed; 200 exactly when access is allowed, the form is valid, the tag is free (apart from the cow itself) and, for an admin, the re-link finds its farmer and farm |
| Handlers.CowUpdateLinks | FarmHub/core/views.py:262-279 | non-admins keep the cow's farmer and farm; the links always name a stored farmer and a stored farm |
| Handlers.CowDeleteStatus | FarmHub/core/views.py:282-285 | 200 exactly for a stored cow the caller may access |
| Handlers.MilkCreateStatus | FarmHub/core/views.py:308-312 | corrected: only farmers and admins; success needs valid fields, a free cow-and-day slot and, for a farmer, their own cow |
| Handlers.MilkCreateStatusAsWritten | FarmHub/core/views.py:308-312 | as written: the same without the farmer-owns-cow check, because the serializer has no request in its context |
| Handlers.MilkCreateAsWrittenSkipsOwnership | FarmHub/core/views.py:308-312 | the as-written create accepts a farmer's record for a cow the farmer does not own; it agrees with the corrected create for non-farmers and for a farmer's own cows |
| Handlers.MilkUpdateStatus | FarmHub/core/views.py:328-338 | corrected: 404, then 403 unless the caller may edit the record (agents never); a farmer may only move it to a cow of their own |
| Handlers.MilkUpdateStatusAsWritten | FarmHub/core/views.py:328-338 | as written: the same without the farmer-owns-cow check |
| Handlers.MilkUpdateAsWrittenSkipsOwnership | FarmHub/core/views.py:328-338 | the as-written update lets a farmer move their record onto another farmer's cow; otherwise it agrees with the corrected update |
| Handlers.MilkDeleteStatus | FarmHub/core/views.py:340-343 | 200 exactly for a stored record the caller may edit; never for agents |
| Handlers.ActivityCreateStatus | FarmHub/core/views.py:366-369 | only farmers and admins; success exactly when the fields are valid |
| Handlers.ActivityUpdateStatus | FarmHub/core/views.py:383-393 | 404, then 403 unless the caller may edit the activity (agents never); success needs valid fields |
| Handlers.ActivityDeleteStatus | FarmHub/core/views.py:395-398 | 200 exactly for a stored activity the caller may edit; never for agents |
| Handlers.EnrollmentCreateStatus | FarmHub/core/views.py:419-429 | only admins and agents, never 403 after the gate; 201 exactly for a valid form naming a farmer and an existing farm not yet paired, where an agent requester manages the farm |
| Handlers.EnrollmentUpdateTargets | FarmHub/core/views.py:452-459 | non-admins cannot move an enrollment: user and farm stay as stored; an admin's submitted values are used |
| Handlers.EnrollmentUpdateStatus | FarmHub/core/views.py:448-460 | corrected: 404, then 403 unless the caller can manage the farm; 200 exactly when the caller can manage the farm, the form is valid, and the target user and farm (an agent's are the enrollment's own) are a farmer and an existing farm not paired by another enrollment |
| Handlers.EnrollmentUpdateNeverSucceedsAsWritten | FarmHub/core/views.py:448-460 | as written (`EnrollmentUpdateStatusAsWritten`), no enrollment update ever succeeds; a caller who passes the access checks gets 400 |
| Handlers.EnrollmentDeleteStatus | FarmHub/core/views.py:462-470 | 200 exactly for a stored enrollment whose farm the caller can manage |
| Handlers.EnrollmentDeleteEffect | FarmHub/core/views.py:462-470 | an agent only deactivates the enrollment; an admin deletes it; no other table changes |
| Transitions.AddUserKeepsConsistent | FarmHub/core/models.py:11-13 | adding a user with a fresh id and a free username keeps every rule and keeps ids below the counter |
| Transitions.EnrollNewFarmerKeepsConsistent | FarmHub/core/views.py:113-116 | creating a farmer and enrolling them on an existing farm keeps every rule |
| Transitions.NewFarmerLandsOnFarm | FarmHub/core/views.py:113-116 | the new farmer's active farm is the farm of the request |
| Transitions.NewFarmerVisibleToAgent | FarmHub/core/views.py:87-91 | the agent managing that farm then finds the new farmer in the user list |
| Transitions.PutFarmKeepsConsistent | FarmHub/core/models.py:35-44 | saving a farm whose agent is an agent keeps every rule |
| Transitions.PutCowKeepsConsistent | FarmHub/core/models.py:51-62 | saving a cow with a free tag on an existing farm for a farmer keeps every rule |
| Transitions.PutMilkKeepsConsistent | FarmHub/core/models.py:79-93 | saving a milk record on an existing cow with a free cow-and-day slot keeps every rule |
| Transitions.PutActivityKeepsConsistent | FarmHub/core/models.py:68-73 | saving an activity on an existing cow keeps every rule |
| Transitions.PutEnrollmentKeepsConsistent | FarmHub/core/models.py:99-117 | saving an enrollment of a farmer on an existing farm with a free pair keeps every rule |
| Transitions.DeleteFarmKeepsConsistent | FarmHub/core/models.py:56-106 | the cascading farm delete keeps every rule and the ids |
| Transitions.DeleteCowKeepsConsistent | FarmHub/core/models.py:72-86 | the cascading cow delete keeps every rule and the ids |
| Transitions.RemoveMilkKeepsConsistent | FarmHub/core/views.py:340-343 | removing a milk record keeps every rule |
| Transitions.RemoveActivityKeepsConsistent | FarmHub/core/views.py:395-398 | removing an activity keeps every rule |
| Transitions.RemoveEnrollmentKeepsConsistent | FarmHub/core/views.py:462-470 | removing an enrollment keeps every rule |
| Store.Database.constructor | FarmHub/core/models.py:11-117 | an empty database satisfies every rule and starts the ids at 1 |
| Store.Database.Register | FarmHub/core/serializers.py:34-58 | answers the registration validation; on success adds a user with the requested role under a fresh id; on failure nothing changes |
| Store.Database.AgentCreate | FarmHub/core/views.py:120-127 | answers `AgentCreateStatus`; on 201 adds an agent under a fresh id; otherwise nothing changes; the rules hold after |
| Store.Database.FarmerCreate | FarmHub/core/views.py:99-117 | answers `FarmerCreateStatus`; on 201 adds the farmer and an active enrollment on the farm; otherwise nothing changes |
| Store.Database.FarmCreate | FarmHub/core/views.py:150-164 | answers `FarmCreateStatus`; on 201 adds the farm with the chosen agent under a fresh id |
| Store.Database.FarmUpdate | FarmHub/core/views.py:181-195 | answers `FarmUpdateStatus`; on 200 rewrites the farm's fields and agent; otherwise nothing changes |
| Store.Database.FarmDelete | FarmHub/core/views.py:197-200 | answers `FarmDeleteStatus`; on 200 the database is the cascading farm delete |
| Store.Database.CowCreate | FarmHub/core/views.py:221-246 | answers `CowCreateStatus`; on 201 adds the cow with the chosen farmer and farm |
| Store.Database.CowUpdate | FarmHub/core/views.py:259-280 | answers `CowUpdateStatus`; on 200 rewrites the cow with its new links |
| Store.Database.CowDelete | FarmHub/core/views.py:282-285 | answers `CowDeleteStatus`; on 200 the database is the cascading cow delete |
| Store.Database.MilkCreate | FarmHub/core/views.py:308-312 | answers the corrected `MilkCreateStatus`; on 201 adds a record by the requester |
| Store.Database.MilkUpdate | FarmHub/core/views.py:328-338 | answers the corrected `MilkUpdateStatus`; on 200 rewrites the record and keeps its recorder |
| Store.Database.MilkDelete | FarmHub/core/views.py:340-343 | answers `MilkDeleteStatus`; on 200 only that record is gone |
| Store.Database.ActivityCreate | FarmHub/core/views.py:366-369 | answers `ActivityCreateStatus`; on 201 adds an activity by the requester |
| Store.Database.ActivityUpdate | FarmHub/core/views.py:383-393 | answers `ActivityUpdateStatus`; on 200 rewrites the activity |
| Store.Database.ActivityDelete | FarmHub/core/views.py:395-398 | answers `ActivityDeleteStatus`; on 200 only that activity is gone |
| Store.Database.EnrollmentCreate | FarmHub/core/views.py:419-429 | answers `EnrollmentCreateStatus`; on 201 adds the enrollment with its defaults |
| Store.Database.EnrollmentUpdate | FarmHub/core/views.py:448-460 | answers the corrected `EnrollmentUpdateStatus`; on 200 rewrites the enrollment |
| Store.Database.EnrollmentDelete | FarmHub/core/views.py:462-470 | answers `EnrollmentDeleteStatus`; on 200 deactivates (agent) or deletes (admin) |
| Reporting.NewestFirst | FarmHub/core/models.py:94 | a permutation of its input with every entry no older, by (date, created_at), than the ones after it |
| Reporting.TotalQuantityPermutation | FarmHub/reporting/database.py:67 | the sum of quantities does not depend on the order of the records |
| Reporting.FarmSummary | FarmHub/reporting/database.py:26-38 | counts farms and cows, counts at most as many farmers as users, and totals 0 liters without milk records |
| Reporting.FarmerIdsAdd | FarmHub/reporting/database.py:29 | adding a user adds one to the farmer count exactly when that user is a farmer |
| Reporting.SummaryCountsOnlyFarmers | FarmHub/reporting/database.py:29 | in the summary, a new user raises `farmers` by one if a farmer and leaves it unchanged otherwise |
| Reporting.MilkRecords | FarmHub/reporting/database.py:48-65 | newest first, and exactly the stored records that pass the filters |
| Reporting.MilkRecordSound | FarmHub/reporting/database.py:54-65 | every record in the report is stored and matches every filter given |
| Reporting.MilkRecordComplete | FarmHub/reporting/database.py:54-65 | every stored record that matches the filters is in the report |
| Reporting.NarrowerFilterSubset | FarmHub/reporting/database.py:54-65 | adding or tightening a filter only removes records |
| Reporting.NarrowerFilterSmallerReport | FarmHub/reporting/database.py:54-68 | a narrower filter never raises the count |
| Reporting.UnfilteredReportTotalIsSummaryTotal | FarmHub/reporting/database.py:26-67 | with no filter, the report's total equals the summary's total liters |
| Reporting.MilkItemAttribution | FarmHub/reporting/database.py:71-86 | an item names its cow's farm and its recorder as farmer, which is not the cow's owner when someone else recorded it |
| Reporting.MilkItems | FarmHub/reporting/database.py:70-86 | one item per record, in order, whose quantities add up to the records' total |
| Reporting.MilkProductionReport | FarmHub/reporting/database.py:41-92 | `count` is the number of matching records and of items, the items follow the newest-first order, and `total_liters` is the sum over the matching records |
| Reporting.EffectiveLimit | FarmHub/reporting/database.py:126 | a positive limit is used as given; zero or a negative limit becomes 10 |
| Reporting.Take | FarmHub/reporting/database.py:126 | a prefix of the input of at most the limit, and the whole input when shorter |
| Reporting.RecentActivityRecords | FarmHub/reporting/database.py:104-126 | at most the limit, newest first |
| Reporting.RecentActivitySound | FarmHub/reporting/database.py:110-124 | every activity in the feed is stored and matches every filter given |
| Reporting.RecentActivitiesAreNewest | FarmHub/reporting/database.py:104-126 | a matching activity is in the feed, or the feed is full of activities none older than it |
| Reporting.ActivityItems | FarmHub/reporting/database.py:128-146 | one item per activity, in order |
| Reporting.RecentActivities | FarmHub/reporting/database.py:95-148 | at most the effective limit of items, one per activity of the newest-first feed |

## Left out

- Logout (`views.py:472-483`): token blacklisting belongs to the JWT library, which is not part of this model.
- The registration view's GET and the HTTP plumbing of the DRF views are left out. Request bodies are abstracted into forms with a `valid` flag that stands for the serializers' field validation (types, required fields, lengths). Response bodies and pagination are left out.
- Password hashing (`make_password`, `set_password`) is left out; passwords appear only where registration checks them.
- Timestamps (`created_at`, `enrolled_at`, `timezone.now`) are parameters, and the clock is not modelled.
- Concurrency and database transactions are not modelled; each handler runs on its own.
- A duplicate (cow, date) milk record or (user, farm) enrollment is answered 400, as a validation error. This assumes a framework version that turns the `UniqueConstraint`s at `models.py:91-93` and `models.py:115-117` into serializer validators (Django REST framework 3.15 and later). With an older version the save fails with an integrity error and a 500, which is not modelled.
- Serializers.ValidateRegistration: the form's strings are the values after the framework's `CharField` whitespace trimming, so the 8-character minimum and the password match apply to trimmed strings; the trimming itself is not modelled.
- `FloatField` quantities and yields are `real`s, so IEEE rounding in the sums is not modelled.
- Ids are handed out by one shared counter for every table, where the database keeps one sequence per table. Only freshness matters to the model.
- Reporting filters take ids as `nat`, so negative ids in a filter are not modelled. Activity dates are always present, so the report's `None` dates are not modelled.
- Activity `description`/`category`, the cow's `breed`/`birth_date`/`health_status`, farm extras and user contact fields are not modelled; they affect no rule.
- Reporting.NewestFirst: rows with equal (date, created_at) come in table-key order. The database leaves that order unspecified.
- The list endpoints return sets of ids, so ordering and pagination of list responses are not modelled.
- Store.Database methods state the new state as whole snapshots (`Save`), so they do not capture field-by-field updates in place.
- The unreachable 403 at `views.py:425-426` appears only as the proved fact that enrollment creation never answers 403 after the gate (`Handlers.EnrollmentCreateStatus`).
- Milk and activity creation do not check that the requester can reach the cow. The model follows the code here.
- `admin.py`, `urls.py`, `reporting/report.py` and `reporting/main.py` (admin registration, routing, output formatting, entry point) are not part of this model.

## Findings

| source | as written | input that shows it | evidently intended | confidence | as-written member | corrected member |
|---|---|---|---|---|---|---|
| FarmHub/core/views.py:456 | two causes: for an admin, `EnrollmentSerializer` is built without the request in its context, so `validate` (`serializers.py:125-127`) always raises "Authentication required."; for an agent, `views.py:454-455` first drop the required `user` and `farm` fields of this full update, so field validation fails before `validate` runs | an admin, or the farm's agent, sends a valid PUT for an existing enrollment: the answer is 400 | two corrections: the request is passed in the context, as in the create path (`views.py:419`); and an agent's update keeps the enrollment's own user and farm instead of leaving them missing, so authorized updates succeed | not executed | Handlers.EnrollmentUpdateNeverSucceedsAsWritten | Handlers.EnrollmentUpdateStatus |
| FarmHub/core/views.py:308-338 | `MilkProductionSerializer` is built without context, so the farmer-owns-cow check (`serializers.py:100-104`) never runs | a farmer POSTs a milk record for a cow owned by another farmer: the answer is 201 | the request is passed in the context, so a farmer can record milk only for their own cows | not executed | Handlers.MilkCreateAsWrittenSkipsOwnership | Handlers.MilkCreateStatus |
