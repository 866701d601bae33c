# Authorization and entitlement core of a multi-tenant admin backend

This project is a Dafny model of the part of a multi-tenant SaaS admin backend that decides who may do what. It covers:

- **Navigation composers.** `buildSidebar` of the sidebar service prunes a static menu tree by domain, module and permission. `isDomainAllowed` is the domain gate. The grouped builder of the UI layer makes an ordered tree from a permission list. The sidebar controller normalises the permissions and module keys it feeds them and reshapes the result for the client.
- **Entitlement and subscription store operations.** These are:
  - the plan-to-tenant module sync and its two fan-out handlers;
  - plan creation, assignment, module edits, default plans, details and common modules;
  - tenant onboarding, listing and activation;
  - the module catalog and per-tenant switches;
  - the per-module status view;
  - the "me" configuration of a tenant user.
- **The login lockout state machine** of the tenant and super-admin logins, and tenant self-registration.
- **The request guards:** two `requirePermission` variants backed by the store, the permission-list guard, `requireModule`, both `requireActiveSubscription` variants, `authMiddleware` and `requireSuperAdmin`.
- **The permission catalog service and the role handlers:** grouping by domain, guarded deletion, bulk creation, role creation and permission replacement.

## How the model is built

The database is one class, `Db.Store`. Each table is a field: a `map` from row id to a row datatype (`Schema`). Junction tables are sets of id pairs, and subscriptions and login attempts are sequences in insertion order. `Store.Valid()` holds the foreign keys and the unique columns, split per table so that a write to one table keeps the rest.

- **Handlers** are methods on the store. Their `ensures` give the whole new state and the reply.
- **Transactions** are atomic: a `$transaction` either assigns all of its new table values or none. Where a guard or handler has a modelled store-failure path, a `fault` parameter (or the `faulty` tenant set of the plan sync) stands for a store that fails at that point. This covers `requireModule`, both `requireActiveSubscription` variants and the two plan-sync handlers; the other handlers are modelled over a store that does not fail.
- **Queries** are pure functions of the tables. Each loop of the source is a method proved equal to a specification function, and the properties the handlers promise are lemmas about those functions.

A few conventions run through the modules:

- **Guards.** A guard returns a `Verdict`: `Next` calls the next handler, `Refuse` answers with a status and message, and `Raise` throws out of the handler without answering.
- **Query filters.** A value from the request context acts as a query condition through `Base.FilterOf`, as the store's query builder treats it. `undefined` drops the condition. A string compares for equality. Any other value fails validation.
- **Time** is an integer number of milliseconds, and a day is `Base.DAY`.
- **Oracles.** Token verification, token signing, password hashing and password comparison are function parameters.

## Model

| member | source | states |
|---|---|---|
| PlanService.PlanModuleIds | src/platform/plans/plan.service.js:7-12 | a module id is selected iff a PlanModule row links it to the plan |
| PlanService.RowKeys | src/platform/plans/plan.service.js:17-21 | the (tenant, module) keys of a tenant's rows for a set of modules, exactly |
| PlanService.EnablePlan | src/platform/plans/plan.service.js:15-30 | the upsert loop adds exactly the tenant's rows for the plan modules and removes none |
| PlanService.DisableOthers | src/platform/plans/plan.service.js:33-39 | the `updateMany` adds and removes no row |
| PlanService.Upsert | src/platform/plans/plan.service.js:16-29 | after one upsert the row exists and is enabled |
| PlanService.EnablePlanStep | src/platform/plans/plan.service.js:15-30 | one more upsert of the loop equals enabling one more plan module |
| PlanService.EnablePlanNothing | src/platform/plans/plan.service.js:15-30 | a plan with no modules makes the loop change nothing |
| PlanService.SyncEnablesExactlyThePlan | src/platform/plans/plan.service.js:15-39 | after a sync the tenant's enabled modules are exactly the plan's modules |
| PlanService.SyncedRow | src/platform/plans/plan.service.js:16-39 | a row of the tenant exists afterwards iff it existed or its module is in the plan; it is enabled iff the module is in the plan, and it keeps its `source` |
| PlanService.SyncRowsOfTheTenant | src/platform/plans/plan.service.js:15-39 | every plan module gets an enabled row; every other row of the tenant is disabled |
| PlanService.SyncLeavesOtherTenants | src/platform/plans/plan.service.js:16-21 | rows of other tenants are unchanged, and no row of another tenant appears |
| PlanService.SyncKeys | src/platform/plans/plan.service.js:24-39 | the stored keys grow exactly by the tenant's plan-module keys; nothing is deleted |
| PlanService.SyncKeepsSource | src/platform/plans/plan.service.js:23-38 | only the `enabled` column is ever written |
| PlanService.SyncIdempotent | src/platform/plans/plan.service.js:15-39 | syncing twice gives the same table as syncing once |
| PlanService.SyncsCommute | src/platform/plans/plan.service.js:15-39 | syncs of two different tenants commute |
| PlanService.SyncKeepsForeignKeys | src/platform/plans/plan.service.js:24-28 | rows written for an existing tenant and existing modules keep the table's foreign keys |
| PlanService.SyncTenantModulesFromPlan | src/platform/plans/plan.service.js:6-40 | the method takes no mode argument; it succeeds iff the tenant exists or the plan has no modules; on success the table is the synced table; on failure it is unchanged |
| PlanService.UpsertAll | src/platform/plans/plan.service.js:14-30 | the upsert loop, in any order of the plan's modules, enables every one of them for the tenant and leaves the other rows alone |
| PlanFanOut.ActiveTenantsOf | src/platform/plans/plan.sync.controller.js:12-18 | one tenant id per matching subscription row, so no more ids than rows |
| PlanFanOut.ActiveTenantsMembers | src/platform/plans/plan.sync.controller.js:12-18 | a tenant is selected iff one of its subscriptions is ACTIVE on the plan; `endDate` plays no part |
| PlanFanOut.ActiveTenantsExist | src/platform/plans/plan.sync.controller.js:12-18 | every selected tenant exists, by the foreign key of Subscription |
| PlanFanOut.SyncAllEffect | src/platform/plans/plan.sync.controller.js:29-39 | after a fan-out every listed tenant has exactly the plan's modules enabled, each row keeping its `source`; other tenants' rows are unchanged |
| PlanFanOut.SyncAllOrderFree | src/platform/plans/plan.sync.controller.js:30-38 | the fan-out's result depends only on the set of tenants, not on their order or on repeats |
| PlanFanOut.SyncAllKeepsForeignKeys | src/platform/plans/plan.sync.controller.js:30-38 | a fan-out over existing tenants keeps TenantModule's foreign keys |
| PlanFanOut.FirstFaulty | src/platform/plans/plan.controller.js:306-320 | the position of the first failing tenant: every tenant before it succeeds |
| PlanFanOut.SyncEach | src/platform/plans/plan.sync.controller.js:30-38 | the tenants are synced in order up to the first failing one: `count` is its position, and the table is every tenant before it synced in turn |
| PlanFanOut.ModeOf | src/platform/plans/plan.sync.controller.js:10 | `mode` defaults to "SAFE" and is otherwise echoed unchanged |
| PlanFanOut.SyncedMessageNamesTheCount | src/platform/plans/plan.sync.controller.js:43 | the success message `Plan synced to ${updatedCount} tenants` determines the count: two different counts never give the same text |
| PlanSyncController.SyncPlanToTenants | src/platform/plans/plan.sync.controller.js:7-53 | with no ACTIVE subscription it answers success and changes nothing. If any tenant fails, it answers 500 and no tenant is changed. Otherwise every selected tenant is synced, `updatedCount` counts the subscription rows, the message is "Plan synced to N tenants" with that count, and the mode is echoed |
| PlanController.ModulesWithKeys | src/platform/plans/plan.controller.js:33-35 | a module is selected iff its key is among the given keys |
| PlanController.Links | src/platform/plans/plan.controller.js:37-42 | the PlanModule rows created for a plan and a module set, exactly |
| PlanController.LinksOfOthers | src/platform/plans/plan.controller.js:37-42 | creating a plan's links writes no link of another plan |
| PlanController.StoredPrice | src/platform/plans/plan.controller.js:29 | `price \|\| 0`: a missing or zero price is stored as 0, any other price as given |
| PlanController.CreatePlan | src/platform/plans/plan.controller.js:7-57 | a missing name or duration gives 400, and so does a duplicate name; neither writes anything. Success is 201 iff neither holds: one fresh plan plus links to exactly the catalog modules whose keys were supplied |
| PlanController.CancelActive | src/platform/plans/plan.controller.js:142-148 | exactly the tenant's ACTIVE subscriptions become CANCELLED; every other row is unchanged |
| PlanController.StartOf | src/platform/plans/plan.controller.js:136 | an absent or zero start date means now; otherwise the given start |
| PlanController.AssignedIsTheOnlyActive | src/platform/plans/plan.controller.js:140-163 | after an assignment the new subscription is the tenant's only ACTIVE one, and other tenants' subscriptions are unchanged |
| PlanController.AssignPlanToTenant | src/platform/plans/plan.controller.js:123-173 | a non-string `planId` gives 500; a missing or inactive plan gives 400. Success iff the plan is assignable and the tenant exists: one transaction cancels, inserts the subscription ending `duration` days after the start, and syncs the modules. Any failure writes nothing |
| PlanController.EditedLinksEffect | src/platform/plans/plan.controller.js:198-221 | a link exists afterwards iff it was added or existed, and is not removed; removal wins; other plans' links are unchanged |
| PlanController.EditIdempotent | src/platform/plans/plan.controller.js:198-221 | repeating the same edit changes nothing further |
| PlanController.ReAddIsNoOp | src/platform/plans/plan.controller.js:201-207 | re-adding links the plan already has is a no-op (`skipDuplicates`) |
| PlanController.UpdatePlanModules | src/platform/plans/plan.controller.js:180-234 | both key lists are resolved to modules before the transaction. Adding to an unknown plan gives 500 and nothing changes. Otherwise the links are the edited links |
| PlanController.UpsertByName | src/platform/plans/plan.controller.js:263-267 | existing plans are kept unchanged (`update: {}`); the name is present afterwards; a new row is created only when the name was absent; unique names stay unique |
| PlanController.SetupDefaultPlans | src/platform/plans/plan.controller.js:239-281 | existing plans are never altered; TRIAL, BASIC and PREMIUM all exist afterwards; only absent ones are created; when all exist nothing changes, so a second run is a no-op |
| PlanController.UpsertEach | src/platform/plans/plan.controller.js:262-268 | plan names stay unique and old plans stay. Every listed name ends up present, each new plan is a listed one whose name was free, and when all names are taken nothing changes |
| PlanController.SyncPlanToTenants | src/platform/plans/plan.controller.js:286-333 | with no ACTIVE subscription it answers success and changes nothing. Otherwise tenants are synced one transaction each, `endDate` not checked, and `updatedCount` counts the committed ones. Tenants committed before the first failure stay synced, and the failure gives 500. Full success answers "Plan synced to N tenants" with the count |
| PlanController.PlanDetails | src/platform/plans/plan.controller.js:341-348 | defined iff the plan exists; holds that plan and exactly its linked modules |
| PlanController.DetailsListTheLinks | src/platform/plans/plan.controller.js:343-347 | over a consistent store the listed modules are exactly the plan's PlanModule links |
| PlanController.GetPlanDetails | src/platform/plans/plan.controller.js:338-366 | 404 "Plan not found" iff the plan is unknown; otherwise 200 with its details |
| PlanController.CommonModuleIds | src/platform/plans/plan.controller.js:375-377 | exactly the modules with `isCommon` |
| PlanController.AddCommonModulesToPlan | src/platform/plans/plan.controller.js:371-402 | with no common module it answers success and writes nothing. An unknown plan fails with 500 and writes nothing. Otherwise every common module gets linked, existing links being skipped |
| PlanController.CommonModulesLinked | src/platform/plans/plan.controller.js:384-390 | a link exists afterwards iff it existed or it links the plan to a common module |
| TenantController.FindTrialPlan | src/platform/tenants/tenant.controller.js:51-53 | the plan found is an active plan named TRIAL; none is found iff no such plan exists |
| TenantController.TrialRows | src/platform/tenants/tenant.controller.js:75-87 | one enabled row for the new tenant per module of the trial plan, and no other row |
| TenantController.OnboardedModules | src/platform/tenants/tenant.controller.js:74-87 | the new tenant has exactly the trial plan's modules enabled; rows of existing tenants are untouched |
| TenantController.AddTenant | src/platform/tenants/tenant.controller.js:28-30 | the tenant table gains exactly the new tenant |
| TenantController.AddAdmin | src/platform/tenants/tenant.controller.js:32-48 | exactly one role named "Admin" in the tenant, and one user in the tenant holding that role |
| TenantController.AddSubscription | src/platform/tenants/tenant.controller.js:63-72 | the subscription table gains exactly the new row |
| TenantController.AddTrialRows | src/platform/tenants/tenant.controller.js:74-87 | the TenantModule table gains exactly the trial rows |
| TenantController.CreateOwners | src/platform/tenants/tenant.controller.js:27-48 | a fresh tenant, its "Admin" role and its admin user holding that role, and nothing else |
| TenantController.StartTrial | src/platform/tenants/tenant.controller.js:59-104 | an ACTIVE TRIAL subscription ending `duration` days after now, the trial module rows, and the TENANT_CREATED audit row |
| TenantController.CreateTenant | src/platform/tenants/tenant.controller.js:7-133 | a missing field gives 400. A taken e-mail or a missing active TRIAL plan aborts the transaction with 500, and then no table changes. 201 iff neither: one tenant, one "Admin" role, one admin user, the trial subscription, exactly the trial plan's modules enabled, and one audit row |
| TenantController.Summarize | src/platform/tenants/tenant.controller.js:175-187 | the tenant's own fields; the plan name and end date of its first ACTIVE subscription with `endDate >= now`, otherwise "NONE" and no expiry |
| TenantController.ListTenants | src/platform/tenants/tenant.controller.js:160-200 | every tenant appears exactly once with its summary, and the list is ordered newest first |
| TenantController.SortedSummaries | src/platform/tenants/tenant.controller.js:160-200 | the summaries of all listed tenants, one each, sorted newest first |
| TenantController.ToggleTenantStatus | src/platform/tenants/tenant.controller.js:205-241 | success iff the tenant exists and the value is a boolean or absent. `isActive` is written as given; the audit action and message follow the value's truthiness. A failure gives 500 and writes nothing |
| ModuleController.TypeRows | src/platform/modules/module.controller.js:25-32 | no tenant-type rows for a common module or an empty list; otherwise exactly one row per listed type |
| ModuleController.CreateModule | src/platform/modules/module.controller.js:9-69 | a missing key or name gives 400. A key in use aborts the transaction with 500. Both leave the tables unchanged. 201 iff neither: one fresh module (`isCommon` defaulting to false) and its tenant-type rows |
| ModuleController.SetSwitch | src/platform/modules/module.controller.js:106-112 | the switch exists afterwards with the given flag, keeping its `source`; no other row changes |
| ModuleController.SetSwitchIdempotent | src/platform/modules/module.controller.js:106-112 | setting the same switch twice to the same value is setting it once |
| ModuleController.SetSwitchOverrides | src/platform/modules/module.controller.js:106-112 | of two writes to one switch, the last one wins |
| ModuleController.ToggleTenantModule | src/platform/modules/module.controller.js:75-140 | a falsy `moduleId` or a non-boolean `enabled` gives 400. An unknown tenant gives 404, checked before the module; an unknown module gives 404; a non-string id gives 500. None of these writes. Success iff all checks pass: the switch is upserted to the flag and the message follows the flag |
| ModuleController.TenantSwitches | src/platform/modules/module.controller.js:150-164 | every TenantModule row of the tenant is listed, enabled or not, projected to id, key, name and flag |
| ModuleController.SwitchesAreTheTenantsRows | src/platform/modules/module.controller.js:150-164 | every listed entry is a row of that tenant, carrying that row's flag and its module's key and name |
| ModuleController.GetTenantModules | src/platform/modules/module.controller.js:146-174 | returns exactly the tenant's switches |
| ModuleController.ListingOf | src/platform/modules/module.controller.js:197-201 | a module with exactly its tenant-type rows |
| ModuleController.ListModules | src/platform/modules/module.controller.js:180-219 | ordered by name ascending under the database's collation, taken as any total, transitive order. With a tenant type: exactly the modules that are common or mapped to it. Without one: every module. Each module is listed once, with its entry and all its tenant types |
| TenantModuleController.Classify | src/modules/tenantModules/tenantModule.controller.js:50-72 | `allowedByPlan` iff common or linked to the plan. `enabled` iff common or the tenant's row flag, false with no row. Status is ACTIVE iff enabled, DISABLED iff allowed but not enabled, LOCKED otherwise |
| TenantModuleController.CommonNeverLocked | src/modules/tenantModules/tenantModule.controller.js:51-70 | a common module is always ACTIVE, so never LOCKED |
| TenantModuleController.ManualSwitchOutsidePlan | src/modules/tenantModules/tenantModule.controller.js:51-70 | a module switched on by hand outside the plan reports ACTIVE while `allowedByPlan` is false |
| TenantModuleController.ClassifyAll | src/modules/tenantModules/tenantModule.controller.js:45-72 | exactly one classified entry per catalog module, ordered by name under the database's collation, taken as any total, transitive order |
| TenantModuleController.GetTenantModules | src/modules/tenantModules/tenantModule.controller.js:3-86 | with no ACTIVE subscription whose `endDate >= now` it answers 400 and nothing else. Otherwise it gives the plan's name and one entry per catalog module, by name under the database's collation, classified against that plan |
| MeController.ResolveIcon | src/modules/me/me.controller.js:130-140 | the table's icon for the five known keys ("students", "attendance", "fees", "exams", "batches"), "grid" for every other key, and never empty |
| MeController.ResolveIconAsWritten | src/modules/me/me.controller.js:131-139 | `map[key] \|\| "grid"` on a plain object: a known key gives its own icon; a key naming an `Object.prototype` member gives that inherited member; any other key gives "grid" |
| MeController.ConstructorKeyGetsNoIcon | src/modules/me/me.controller.js:139 | the key "constructor" yields the inherited member as written, where "grid" is intended |
| MeController.SidebarOf | src/modules/me/me.controller.js:78-83 | one entry per module in the same order, with the module's key and name, `path = "/app/" + key` and `icon = resolveIcon(key)` |
| MeController.PathsNameTheirModule | src/modules/me/me.controller.js:82 | different module keys give different paths |
| MeController.RefsOf | src/modules/me/me.controller.js:55-58 | each linked module is projected to its key and name, one per row, in row order |
| MeController.KeysOf | src/modules/me/me.controller.js:71-73 | one permission key per role-permission row, in row order |
| MeController.LinkedModules | src/modules/me/me.controller.js:55-58 | exactly the plan's linked modules, each once, with distinct keys |
| MeController.Grants | src/modules/me/me.controller.js:64-69 | exactly the role-permission rows the `roleId` condition selects |
| MeController.GrantedKeys | src/modules/me/me.controller.js:64-73 | every key of a permission linked by a selected row is included |
| MeController.GrantedKeyList | src/modules/me/me.controller.js:64-73 | one key per selected row; the keys are exactly the granted keys |
| MeController.RoleKeys | src/modules/me/me.controller.js:64-73 | with the caller's role, a key is listed iff a permission linked to that role has it |
| MeController.UndefinedRoleSeesEveryGrant | src/modules/me/me.controller.js:64-66 | a context without `roleId` drops the condition, so every role's grants are listed |
| MeController.UserIdOf | src/modules/me/me.controller.js:10-11 | the user lookup has an id iff `userId` is a string |
| MeController.GetMeConfig | src/modules/me/me.controller.js:3-125 | 401 "Invalid tenant context" iff the user is missing or has no tenant; a query failure gives 500. The subscription must be ACTIVE with `endDate > now`. `subscription` is null iff there is none, and then `modules` is empty; otherwise `modules` is exactly the plan's linked modules. `permissions` are the role's keys; `sidebar` is built from the modules |
| Lockout.AfterFailure | src/modules/auth/auth.controller.js:60-76 | a wrong password adds exactly one failure; it sets `lockedUntil = now + 15 min` iff the new count is at least 5, and otherwise keeps the old lock field |
| Lockout.Attempt | src/modules/auth/auth.controller.js:48-93 | a locked account is unchanged whatever the password. Unlocked, a correct password clears both fields and a wrong one applies the failure update |
| Lockout.FifthFailureLocks | src/modules/auth/auth.controller.js:60-71 | from a cleared account four wrong passwords leave it unlocked with count 4; the fifth locks it for 15 minutes from that attempt |
| Lockout.CountUpWhileUnlocked | src/modules/auth/auth.controller.js:61-71 | below the threshold each wrong password adds one and sets no lock |
| Lockout.FailuresSplit | src/modules/auth/auth.controller.js:60-76 | a run of failures is the same as its two halves applied one after the other |
| Lockout.LockedAttemptChangesNothing | src/modules/auth/auth.controller.js:49-55 | while a lock holds, an attempt changes no counter, whatever the password |
| Lockout.RelockAfterExpiry | src/modules/auth/auth.controller.js:61-71 | the count is not reset when a lock expires, so the first wrong password afterwards locks again |
| Lockout.SuccessClears | src/modules/auth/auth.controller.js:87-93 | a correct password on an unlocked account resets the count to 0 and clears the lock |
| TenantAuth.WithLock | src/modules/auth/auth.controller.js:73-93 | the user update writes only the lock fields |
| TenantAuth.FindActiveUser | src/modules/auth/auth.controller.js:13-22 | the user found is active and matches the e-mail condition. None is found iff no user does. A string e-mail finds the unique holder |
| TenantAuth.TokenClaims | src/modules/auth/auth.controller.js:98-104 | the payload holds exactly `userId`, `tenantId`, `roleId`, and `type: "TENANT_USER"` |
| TenantAuth.RecordAttempt | src/modules/auth/auth.controller.js:25-38 | exactly one LoginAttempt row is appended |
| TenantAuth.SetLock | src/modules/auth/auth.controller.js:73-93 | only that user's lock fields change |
| TenantAuth.TenantLogin | src/modules/auth/auth.controller.js:8-132 | no active user gives 401 INVALID_EMAIL with no counter change. A lock in force gives 423 ACCOUNT_LOCKED before any password check. A wrong password applies the failure update and gives 401 INVALID_PASSWORD. A correct one clears the lock, records LOGIN_SUCCESS and signs the "TENANT_USER" payload. Each answered path records exactly one attempt, apart from the 500 answers for an e-mail that is neither a string nor absent and for a non-string password, which record none |
| TenantAuth.PlanRows | src/modules/auth/auth.controller.js:213-222 | one enabled row with source "PLAN" per TRIAL module, and no other row |
| TenantAuth.CreatePlanRows | src/modules/auth/auth.controller.js:213-222 | the loop adds exactly the plan rows |
| TenantAuth.AddPlanRows | src/modules/auth/auth.controller.js:209-222 | the TenantModule table gains exactly the plan rows of the TRIAL plan |
| TenantAuth.TenantRegister | src/modules/auth/auth.controller.js:134-243 | a missing field gives 400 and a registered e-mail 409, both before any write. Otherwise the tenant, its "Admin" role and its admin user are created. They stay even when a missing TRIAL plan then fails the request, with no subscription. With a TRIAL plan: the subscription and one enabled "PLAN" row per TRIAL module, then 201 |
| PlatformAuth.WithAdminLock | src/platform/auth/auth.controller.js:66-69 | the update writes only the lock fields |
| PlatformAuth.FindAdmin | src/platform/auth/auth.controller.js:13-15 | the super-admin holding the e-mail, unique; none iff no one holds it |
| PlatformAuth.AdminClaims | src/platform/auth/auth.controller.js:92-95 | the payload is exactly `{ superAdminId, role: "SUPER_ADMIN" }` |
| PlatformAuth.RecordAdminAttempt | src/platform/auth/auth.controller.js:18-30 | exactly one LoginAttempt row is appended |
| PlatformAuth.UpdateAdmin | src/platform/auth/auth.controller.js:66-87 | only that super-admin's row changes |
| PlatformAuth.SuperAdminLogin | src/platform/auth/auth.controller.js:8-114 | a missing or inactive admin gives 401 INVALID_EMAIL. A lock in force gives 423, before the password. A wrong password adds one failure (locking from the fifth) and gives 401. Success resets count and lock, sets `lastLogin` and signs the admin payload. Each answered path records one SUPER_ADMIN attempt, apart from the 500 answers for a non-string e-mail or a non-string password, which record none |
| AuthMiddleware.TokenOf | src/core/middlewares/auth.middleware.js:10 | the token is the second space-separated piece of the header, or undefined; it never contains a space |
| AuthMiddleware.BearerToken | src/core/middlewares/auth.middleware.js:10 | for "scheme token" with neither part containing a space, the token extracted is exactly `token` |
| AuthMiddleware.Project | src/core/middlewares/auth.middleware.js:19-23 | the context holds exactly the claims among `userId`, `tenantId`, `roleId` that the token carries, with their values |
| AuthMiddleware.Authenticate | src/core/middlewares/auth.middleware.js:3-29 | no header gives 401 "No token provided". A missing token or a failed verification gives 401 "Invalid or expired token". A verified token whose `type` claim is not exactly "TENANT" gives 403 "Invalid access type". The request passes iff the verified type is "TENANT", and then the context is the projection |
| AuthMiddleware.AuthenticateAs | src/core/middlewares/auth.middleware.js:3-29 | the same middleware for any admitted type. No header gives 401 "No token provided". A missing token or a failed verification gives 401 "Invalid or expired token". A verified token whose `type` is not the admitted one gives 403 "Invalid access type". It passes iff the token verifies with that type, and the context is then the projection |
| AuthMiddleware.ContextLacksPermissionsAndTenant | src/core/middlewares/auth.middleware.js:19-23 | a context this middleware builds has no `permissions`, no `tenant` and no `type` |
| AuthMiddleware.SplitAtSeparator | src/core/middlewares/auth.middleware.js:10 | splitting at the first separator gives the part before it followed by the pieces of the rest |
| AuthMiddleware.SplitWithout | src/core/middlewares/auth.middleware.js:10 | a string without the separator splits into itself alone |
| Base.Split | src/core/middlewares/auth.middleware.js:10 | `split` gives at least one piece, and no piece holds the separator |
| Base.SplitJoin | src/core/middlewares/auth.middleware.js:10 | joining the pieces with the separator gives back the string |
| Base.FilterOf | src/core/middlewares/subscription.middleware.js:4-12 | an undefined context value drops the condition. A string compares for equality with exactly that id. Any other value is rejected |
| Base.DecimalRoundTrip | src/platform/plans/plan.controller.js:323 | the decimal numeral a template literal prints for a count reads back as that count |
| Base.ToUpper | src/modules/sidebar/sidebar.controller.js:55 | the model's upper-casing, restricted to ASCII letters, keeps the length and maps each character on its own; see "Left out" for what `toUpperCase` does beyond that |
| Schema.FirstLive | src/core/middlewares/superAdmin.middleware.js:12-29 | `findFirst` returns the first row, in the order assumed for unordered queries (insertion order), whose tenant matches and that is current. None means no row is both |
| TenantTokenGate.TenantLoginTokenRefused | src/core/middlewares/auth.middleware.js:15-17 | every token the tenant login signs (`type: "TENANT_USER"`) is refused with 403 "Invalid access type" |
| TenantTokenGate.AuthenticateTenantUser | src/core/middlewares/auth.middleware.js:3-29 | the middleware admitting "TENANT_USER". No header gives 401 "No token provided", and a missing or unverified token 401 "Invalid or expired token". A verified token of another type gives 403 "Invalid access type". It passes iff the verified type is "TENANT_USER", with the projection as context |
| TenantTokenGate.TenantLoginTokenAdmitted | src/modules/auth/auth.controller.js:98-104 | with the corrected gate, a tenant-login token passes, and the context names exactly the user, the user's tenant and the user's role |
| RequirePermission.RoleOf | src/core/middlewares/require.permission.js:7-14 | a role is found iff `roleId` is a string naming an existing role |
| RequirePermission.Check | src/core/middlewares/require.permission.js:3-29 | a "SUPER_ADMIN" `type` passes with no lookup. Otherwise there is no role to find iff the guard throws, and it passes iff the role holds a permission with exactly that key. A refusal is 403 "Permission denied" |
| RequirePermission.BypassIgnoresStore | src/core/middlewares/require.permission.js:5 | for a super-admin context the answer does not depend on the store |
| RequirePermission.MoreGrantsStillAllow | src/core/middlewares/require.permission.js:16-18 | adding role-permission links never turns an allow into a refusal |
| RequirePermission.NoBypassBehindAuthMiddleware | src/core/middlewares/require.permission.js:5 | behind `authMiddleware` the context has no `type`, so it passes only through its role's grants |
| RbacMiddleware.Check | src/core/middlewares/rbac.middleware.js:3-23 | a `roleId` that is neither undefined nor a string makes it throw. It passes iff some link matching the `roleId` filter has a permission with exactly the key. A refusal is 403 "Permission denied" |
| RbacMiddleware.OnlyRoleDecides | src/core/middlewares/rbac.middleware.js:5-12 | two contexts with the same `roleId` get the same answer |
| RbacMiddleware.NoSuperAdminBypass | src/core/middlewares/rbac.middleware.js:7-19 | a super-admin `type` claim without a grant is refused with 403 |
| RbacMiddleware.MissingRoleMatchesAnyRole | src/core/middlewares/rbac.middleware.js:5-12 | a context without `roleId` passes when any role at all holds the key |
| RbacMiddleware.AgreesWithRequirePermission | src/core/middlewares/rbac.middleware.js:7-19 | for a non-super-admin context naming an existing role, the two guards give the same verdict |
| PermissionGuard.Check | src/core/middlewares/permission.guard.js:1-5 | an array `permissions` passes iff it holds the exact string. A string value passes iff `perm` is a piece of it. Otherwise `includes` throws. A refusal is 403 "Forbidden" |
| PermissionGuard.MoreListedStillAllow | src/core/middlewares/permission.guard.js:2 | a longer list never turns an allow into a refusal |
| PermissionGuard.ListedAllows | src/core/middlewares/permission.guard.js:2 | listing the permission passes the guard |
| PermissionGuard.StringValueMatchesPieces | src/core/middlewares/permission.guard.js:2 | a string value admits every piece of itself |
| PermissionGuard.ThrowsBehindAuthMiddleware | src/core/middlewares/permission.guard.js:2 | behind `authMiddleware` there is no `permissions` value, so the guard always throws |
| ModuleMiddleware.UnavailableNamesModule | src/core/middlewares/module.middleware.js:34 | the refusal text quotes the module key |
| ModuleMiddleware.Check | src/core/middlewares/module.middleware.js:8-47 | it never throws. A store failure or a rejected `tenantId` gives 500 "Module access validation failed". Otherwise it passes iff some ACTIVE subscription of the tenant, current with `gte`, has a plan linking a module with exactly that key, and answers 403 with the message naming the module iff there is none |
| ModuleMiddleware.LastInstantStillAllowed | src/core/middlewares/module.middleware.js:18 | a subscription ending exactly now still admits |
| ModuleMiddleware.MoreLinksStillAllow | src/core/middlewares/module.middleware.js:19-27 | more plan-module links never turn an allow into a refusal |
| ModuleMiddleware.InactiveSubscriptionsRefused | src/core/middlewares/module.middleware.js:17 | a tenant whose subscriptions are all cancelled or expired is refused with 403, whatever the end dates |
| SubscriptionMiddleware.Check | src/core/middlewares/subscription.middleware.js:3-21 | a store failure or a rejected `tenantId` throws. It passes iff a matching ACTIVE subscription ends at or after now. Otherwise it answers 403 with the upgrade message |
| SubscriptionMiddleware.OnlyActiveCounts | src/core/middlewares/subscription.middleware.js:9 | with only non-ACTIVE rows it never passes |
| SubscriptionMiddleware.LastInstantStillAllowed | src/core/middlewares/subscription.middleware.js:10 | a subscription ending exactly now still counts |
| SubscriptionMiddleware.MissingTenantMatchesAnyTenant | src/core/middlewares/subscription.middleware.js:4-8 | a context without `tenantId` passes when any tenant has a current subscription |
| SuperAdminMiddleware.Check | src/core/middlewares/superAdmin.middleware.js:3-50 | it bypasses iff `tenantId` is falsy. A store failure or a non-string tenant gives 500. For a string tenant and a working store, it attaches exactly the first current subscription of the tenant when there is one, and otherwise answers 403 SUBSCRIPTION_EXPIRED with the renewal message |
| SuperAdminMiddleware.AttachedIsCurrent | src/core/middlewares/superAdmin.middleware.js:12-40 | the attached row is the tenant's, ACTIVE, and ends at or after now |
| SuperAdminMiddleware.AgreesWithPlainGuard | src/core/middlewares/superAdmin.middleware.js:12-37 | for a non-empty string tenant, it attaches exactly when the plain guard calls `next` |
| SuperAdminMiddleware.TenantlessPasses | src/core/middlewares/superAdmin.middleware.js:7-10 | an absent, null or empty `tenantId` passes whatever the subscriptions |
| PlatformAuthMiddleware.RequireSuperAdmin | src/core/middlewares/platformAuth.middleware.js:3-21 | no header gives 401 "No token", and a bad token 401 "Invalid token". It passes iff `role` is "SUPER_ADMIN", with the whole payload as context. A verified token with any other role gives exactly 403 "Forbidden" |
| PlatformAuthMiddleware.AdminTokenAdmitted | src/platform/auth/auth.controller.js:92-95 | a token signed at super-admin login passes with its payload as context |
| PlatformAuthMiddleware.TenantTokenForbidden | src/core/middlewares/platformAuth.middleware.js:12-14 | a tenant-login token has no `role`, so it is refused with 403 |
| PlatformAuthMiddleware.AdminTokenRefusedByTenantGate | src/core/middlewares/auth.middleware.js:15-17 | a super-admin token has no `type`, so `authMiddleware` refuses it with 403 |
| PermissionService.Domains | src/platform/permission/permission.service.js:57-65 | the domains seen, each once, and nothing else |
| PermissionService.Grouped | src/platform/permission/permission.service.js:74 | there is one group per distinct domain |
| PermissionService.GroupsKeys | src/platform/permission/permission.service.js:58-65 | the keys of `groups` are exactly the domains seen |
| PermissionService.GroupOfDomain | src/platform/permission/permission.service.js:59-71 | each domain's group is labelled with the domain and carries the module key of its first permission. It lists that domain's permissions as `{id, key, action}`, in input order |
| PermissionService.NoItemsOutside | src/platform/permission/permission.service.js:57-72 | a domain not seen has no items |
| PermissionService.EveryPermissionCounted | src/platform/permission/permission.service.js:57-72 | every permission is an item of exactly one domain |
| PermissionService.EveryPermissionOnce | src/platform/permission/permission.service.js:53-75 | the group sizes add up to the number of permissions |
| PermissionService.GroupRows | src/platform/permission/permission.service.js:56-74 | the loop over the rows yields exactly `Grouped` of them |
| PermissionService.GetGroupedPermissions | src/platform/permission/permission.service.js:53-75 | every catalog row is read exactly once, and the groups are those of the rows read |
| PermissionService.DeletePermission | src/platform/permission/permission.service.js:39-49 | a permission linked to a role is refused and nothing is deleted. A missing one fails. Otherwise exactly that row is removed |
| PermissionService.InsertUnlessPresent | src/platform/permission/permission.service.js:10-13 | a row is inserted under a fresh id iff its key is unused, and otherwise nothing changes |
| PermissionService.InsertAll | src/platform/permission/permission.service.js:10-13 | keys stay unique and old rows stay. Every new row comes from the batch, with a key not used before, and is the first row of the batch with that key. Every batch key ends up used, and `count` is the number of rows added |
| PermissionService.CreatePermissionsBulk | src/platform/permission/permission.service.js:9-14 | `createMany` with `skipDuplicates`: the facts of `InsertAll` hold on the store, so of several batch rows sharing a new key the first is stored. A batch whose keys are all present adds nothing and counts 0 |
| PermissionService.FirstWithKeyAt | src/platform/permission/permission.service.js:10-13 | the first row of a batch with a key is the row at the earliest position holding it |
| PermissionService.FirstWithKeyNone | src/platform/permission/permission.service.js:10-13 | a batch has no first row with a key exactly when no row has that key |
| PermissionService.FirstWithKeyAppend | src/platform/permission/permission.service.js:10-13 | a row appended to the batch is the first with its key iff no earlier row has it, and earlier first rows are kept |
| PermissionService.FirstRowStep | src/platform/permission/permission.service.js:10-13 | inserting or skipping the next batch row keeps every stored row the first of the batch with its key |
| RoleController.CreateRole | src/modules/admin/roles/role.controller.js:7-30 | a falsy name gives 400. A tenant reference that is not valid gives 500 and no write. Otherwise exactly one role is added under a fresh id, with the name and the context's tenant, and the answer is 201 |
| RoleController.Unlinked | src/modules/admin/roles/role.controller.js:41-43 | `deleteMany` keeps exactly the links of other roles |
| RoleController.LinksOf | src/modules/admin/roles/role.controller.js:46-49 | the rows are exactly the role paired with each listed id |
| RoleController.Replaced | src/modules/admin/roles/role.controller.js:41-50 | the role is linked to exactly the listed ids, and other roles' links are unchanged |
| RoleController.ReplaceIdempotent | src/modules/admin/roles/role.controller.js:41-50 | replacing twice with the same list is replacing once |
| RoleController.EmptyListClears | src/modules/admin/roles/role.controller.js:41-50 | an empty list leaves the role with no links |
| RoleController.Strings | src/modules/admin/roles/role.controller.js:46-49 | the ids are defined iff every element is a string, and they are those strings in order |
| RoleController.AssignPermissionsToRole | src/modules/admin/roles/role.controller.js:36-62 | it answers 200 iff the body holds a list of strings whose rows the store accepts; the role's links are then exactly that list. Otherwise 500, and the deletion has already happened, so the role keeps no links |
| SidebarDomain.IsDomainAllowed | src/modules/sidebar/sidebar.domain.js:9-16 | a missing or empty domain admits everyone, and an unknown domain admits no one. COMMON admits every type, even none. Any other domain admits exactly its listed types, compared exactly |
| SidebarDomain.AtMostOneSpecificDomain | src/modules/sidebar/sidebar.domain.js:1-7 | no tenant type is admitted by two different domains other than COMMON |
| SidebarService.FilterNode | src/modules/sidebar/sidebar.service.js:21-59 | a node of a refused domain is dropped. A kept node has the same key and differs from the input at most in its children |
| SidebarService.FilterNodes | src/modules/sidebar/sidebar.service.js:30-61 | the result is never longer than the input |
| SidebarService.KeptWithSurvivingChildren | src/modules/sidebar/sidebar.service.js:29-37 | a node with a surviving child is kept with exactly those children, whatever its own module and permission |
| SidebarService.FallsThroughToOwnGates | src/modules/sidebar/sidebar.service.js:39-58 | with no surviving child, the node is kept unchanged iff it passes the module and permission gates |
| SidebarService.EmptyPermissionsOpenTheGate | src/modules/sidebar/sidebar.service.js:49-53 | an empty permission list never hides a node |
| SidebarService.FilterNodeIsPruned | src/modules/sidebar/sidebar.service.js:21-59 | a kept node is the input node, or that node with its children pruned, at every depth |
| SidebarService.FilterNodesArePruned | src/modules/sidebar/sidebar.service.js:30-61 | the output is an order-preserving subsequence of pruned copies of the input |
| SidebarService.PrunedListSkip | src/modules/sidebar/sidebar.service.js:32 | dropping a node keeps the output a pruned subsequence |
| SidebarService.FilterNodesOrigin | src/modules/sidebar/sidebar.service.js:30-61 | every output node is the filtered form of an input node with the same key |
| SidebarService.FilterNodesKeeps | src/modules/sidebar/sidebar.service.js:30-61 | every input node that passes the filter appears in the output |
| SidebarService.EmptyPermissionsKeepNode | src/modules/sidebar/sidebar.service.js:49-56 | whatever a permission list lets through, the empty list lets through too |
| SidebarService.EmptyPermissionsKeepSome | src/modules/sidebar/sidebar.service.js:34 | a non-empty surviving list stays non-empty with no permissions |
| SidebarService.DashboardAlwaysFirst | src/modules/sidebar/sidebar.service.js:4-61 | DASHBOARD is always the first entry, unchanged |
| SidebarService.RootDomains | src/modules/sidebar/sidebar.config.js:12-48 | the EDUCATION and HEALTHCARE roots carry their own domain |
| SidebarService.RefusedDomainRootsHidden | src/modules/sidebar/sidebar.service.js:24-61 | a root of a refused domain never reaches the output |
| SidebarService.RestaurantSeesNoEducationOrHealthcare | src/modules/sidebar/sidebar.service.js:24-26 | a RESTAURANT tenant sees neither the EDUCATION nor the HEALTHCARE subtree |
| SidebarController.TenantTypeOf | src/modules/sidebar/sidebar.controller.js:18 | a tenant type is read only from a string `tenant.type` of the context |
| SidebarController.PermissionKey | src/modules/sidebar/sidebar.controller.js:24 | a string is kept, an object gives its `key`, and anything else is undefined |
| SidebarController.NormalizeItems | src/modules/sidebar/sidebar.controller.js:24-25 | the result is no longer than the input and every element is truthy |
| SidebarController.NormalizePermissions | src/modules/sidebar/sidebar.controller.js:21-26 | anything but an array yields `[]`, and every element kept is truthy |
| SidebarController.NormalizedMembers | src/modules/sidebar/sidebar.controller.js:22-26 | a value survives iff it is truthy and is the key of some element |
| SidebarController.NonEmptyStringsKept | src/modules/sidebar/sidebar.controller.js:24-25 | a list of non-empty strings passes through unchanged |
| SidebarController.EnabledModuleKeys | src/modules/sidebar/sidebar.controller.js:36-56 | the enabled keys never include the empty string; keys are upper-cased by the ASCII-only `Base.ToUpper` |
| SidebarController.ToUpperIdempotent | src/modules/sidebar/sidebar.controller.js:55 | upper-casing twice is upper-casing once |
| SidebarController.EnabledKeysAreUpperCase | src/modules/sidebar/sidebar.controller.js:54-56 | every enabled key is non-empty and upper-case |
| SidebarController.OnlyTheTenantsEnabledRows | src/modules/sidebar/sidebar.controller.js:36-40 | rows of other tenants and disabled rows never contribute |
| SidebarController.NormalizeNode | src/modules/sidebar/sidebar.controller.js:75-84 | `id` and `key` are the node key; the label and route are copied. The icon falls back to "file-text", and a children array is normalised entry by entry |
| SidebarController.NormalizeSidebarForUI | src/modules/sidebar/sidebar.controller.js:74-86 | one client entry per node, in order, with the node's key |
| SidebarController.NormalizedPointwise | src/modules/sidebar/sidebar.controller.js:74-84 | the client list is, entry for entry, the normalisation of each node |
| SidebarController.NormalizedEverywhere | src/modules/sidebar/sidebar.controller.js:74-84 | every entry of the client list is the normalisation of the node at the same position |
| SidebarController.SidebarOf | src/modules/sidebar/sidebar.controller.js:14-111 | a non-string `tenantId` gives 500 "Failed to load sidebar". Otherwise the sidebar has one entry per node the composer returns, and entry `i` is the normalisation of node `i` |
| SidebarController.GetAdminSidebar | src/modules/sidebar/sidebar.controller.js:14-111 | the handler reads the store, changes nothing, and answers `SidebarOf` of the context and the tables |
| SidebarController.BehindAuthMiddleware | src/modules/sidebar/sidebar.routes.js:7 | behind `authMiddleware` the composer sees no tenant type and no permissions |
| SidebarController.NoTenantTypeHidesDomainTrees | src/modules/sidebar/sidebar.controller.js:18 | without a tenant type neither domain subtree is shown |
| UiSidebarBuilder.GroupsFor | src/core/ui/ui.sidebar.builder.js:16 | a tenant type without a table gets no groups |
| UiSidebarBuilder.EntryFor | src/core/ui/ui.sidebar.builder.js:26-28 | an entry exists iff the permission has a sidebar config whose module is unset or enabled, and it is that config |
| UiSidebarBuilder.ParentOf | src/core/ui/ui.sidebar.builder.js:30-35 | a per-tenant parent resolves by the tenant type, and a fixed one to itself. A missing or empty result means no group |
| UiSidebarBuilder.PushChild | src/core/ui/ui.sidebar.builder.js:20-35 | only group `k` changes: it is created on first use with its definition and no children, then gets the child appended |
| UiSidebarBuilder.Collect | src/core/ui/ui.sidebar.builder.js:25-37 | the creation-order key list and the group table name the same groups |
| UiSidebarBuilder.Nest | src/core/ui/ui.sidebar.builder.js:39-41 | the roots are untouched, no group is lost, and keys and table stay in step |
| UiSidebarBuilder.RootGroups | src/core/ui/ui.sidebar.builder.js:52 | exactly groups that name no parent, taken from the table |
| UiSidebarBuilder.Grouped | src/core/ui/ui.sidebar.builder.js:25-41 | after both loops the key list and the group table agree |
| UiSidebarBuilder.SortNode | src/core/ui/ui.sidebar.builder.js:43-48 | a node keeps its order and definition, an entry is unchanged, and a group keeps its number of children |
| UiSidebarBuilder.SortEach | src/core/ui/ui.sidebar.builder.js:46-48 | each node is sorted in place, position by position |
| UiSidebarBuilder.CollectEntries | src/core/ui/ui.sidebar.builder.js:18-37 | the permission loop computes exactly `Collect` |
| UiSidebarBuilder.AppendChild | src/core/ui/ui.sidebar.builder.js:20-23 | the table update is exactly `PushChild` |
| UiSidebarBuilder.NestGroups | src/core/ui/ui.sidebar.builder.js:39-41 | the group loop over the groups present at its start computes exactly `Nest` |
| UiSidebarBuilder.BuildSidebar | src/core/ui/ui.sidebar.builder.js:15-54 | the builder returns exactly `Sidebar` of its inputs |
| UiSidebarBuilder.ContributesSnoc | src/core/ui/ui.sidebar.builder.js:25-37 | one more permission contributes exactly its own entry |
| UiSidebarBuilder.CollectRoots | src/core/ui/ui.sidebar.builder.js:18-36 | the roots are entries only: the dashboard and exactly the contributed entries with no group |
| UiSidebarBuilder.PlaceGroups | src/core/ui/ui.sidebar.builder.js:35 | one loop step adds at most the group its entry resolves to, and appends the entry only there |
| UiSidebarBuilder.CollectHoldsEntries | src/core/ui/ui.sidebar.builder.js:35 | after the permission loop, groups hold entries only |
| UiSidebarBuilder.CollectGroupKeys | src/core/ui/ui.sidebar.builder.js:20-35 | a group exists iff some contributed entry resolves to its key |
| UiSidebarBuilder.CollectGroupEntries | src/core/ui/ui.sidebar.builder.js:35 | each group holds exactly the contributed entries that resolve to its key |
| UiSidebarBuilder.CollectGroups | src/core/ui/ui.sidebar.builder.js:25-37 | the three facts above together |
| UiSidebarBuilder.PushChildSlots | src/core/ui/ui.sidebar.builder.js:21 | pushing a non-empty child keeps groups non-empty and their definitions from the table |
| UiSidebarBuilder.CollectSlots | src/core/ui/ui.sidebar.builder.js:21-35 | groups are made only to receive a child, and take their definition from the tenant's table |
| UiSidebarBuilder.NestSlots | src/core/ui/ui.sidebar.builder.js:40 | the group loop keeps that fact |
| UiSidebarBuilder.NestKeepsParented | src/core/ui/ui.sidebar.builder.js:39-41 | a group that names a parent is never pushed into, so the loop leaves it as it was |
| UiSidebarBuilder.NestItems | src/core/ui/ui.sidebar.builder.js:39-41 | the group loop adds only groups: entries stay where they were |
| UiSidebarBuilder.NestPlacesGroups | src/core/ui/ui.sidebar.builder.js:40 | each visited group that names a parent ends up among that parent's children |
| UiSidebarBuilder.GroupTablesShallow | src/core/ui/sidebar.groups.js:1-66 | every tenant's group table, and the empty one, is one level deep |
| UiSidebarBuilder.TableShallow | src/core/ui/sidebar.groups.js:1-66 | a tenant's group table whose keys all satisfy the one-level condition is one level deep |
| UiSidebarBuilder.CollectedBeforeNest | src/core/ui/ui.sidebar.builder.js:25-41 | the permission loop leaves what the group loop relies on |
| UiSidebarBuilder.GroupEntries | src/core/ui/ui.sidebar.builder.js:25-41 | after both loops, each group holds exactly the entries that resolve to its key |
| UiSidebarBuilder.NestEntry | src/core/ui/ui.sidebar.builder.js:39-41 | an entry is in a group after the group loop iff it was there before |
| UiSidebarBuilder.GroupNesting | src/core/ui/ui.sidebar.builder.js:39-41 | a group that names a parent sits, as it is, among that parent's children, and that parent names none |
| UiSidebarBuilder.SortLevelMembers | src/core/ui/ui.sidebar.builder.js:43-48 | a sorted level holds exactly the sorted forms of its nodes |
| UiSidebarBuilder.SortNodeNonEmpty | src/core/ui/ui.sidebar.builder.js:46-48 | sorting keeps every group non-empty |
| UiSidebarBuilder.SortLevelNonEmpty | src/core/ui/ui.sidebar.builder.js:43-48 | the same for a whole level |
| UiSidebarBuilder.SortNodeSorted | src/core/ui/ui.sidebar.builder.js:43-48 | a sorted group is ordered at every depth |
| UiSidebarBuilder.SortLevelSorted | src/core/ui/ui.sidebar.builder.js:43-48 | a sorted level is ordered by `order ?? 99`, and so is every node in it |
| UiSidebarBuilder.TopLevelShape | src/core/ui/ui.sidebar.builder.js:50-53 | before sorting, the root entries are the dashboard and the ungrouped contributions. Root groups name no parent, and every node is non-empty |
| UiSidebarBuilder.DashboardAlwaysShown | src/core/ui/ui.sidebar.builder.js:4-18 | the dashboard is always at the root |
| UiSidebarBuilder.RootEntries | src/core/ui/ui.sidebar.builder.js:25-53 | an entry is at the root iff it is the dashboard or a contributed entry with no group |
| UiSidebarBuilder.RootGroupsAreTopLevel | src/core/ui/ui.sidebar.builder.js:52 | root groups name no parent, and every group at any depth has a child |
| UiSidebarBuilder.SortedAtEveryLevel | src/core/ui/ui.sidebar.builder.js:43-53 | every level is sorted. The root is a stable permutation of the unsorted level, so nothing is lost and equal orders keep their positions |
| UiSidebarBuilder.UnknownPermissionIgnored | src/core/ui/ui.sidebar.builder.js:26-27 | a permission without a sidebar entry changes nothing |
| UiSidebarBuilder.DisabledModuleIgnored | src/core/ui/ui.sidebar.builder.js:28 | an entry of a module that is not enabled changes nothing |
| UiSidebarBuilder.StudentsAtRootForRestaurant | src/core/ui/permission-ui.map.js:1-197 | "student.view" resolves to no group for RESTAURANT, to ADMIN for SCHOOL and to HR for COMPANY |
| Sorting.Insert | src/core/ui/ui.sidebar.builder.js:45 | inserting adds exactly one element |
| Sorting.SortBy | src/core/ui/ui.sidebar.builder.js:45 | sorting keeps the length |
| Sorting.WithKey | src/core/ui/ui.sidebar.builder.js:45 | the elements with a given key are a sub-list |
| Sorting.InsertPermutes | src/core/ui/ui.sidebar.builder.js:45 | inserting adds the element to the multiset |
| Sorting.SortByPermutes | src/core/ui/ui.sidebar.builder.js:45 | sorting is a permutation |
| Sorting.PermutationKeepsDistinct | src/platform/modules/module.controller.js:180-219 | reordering a list without repeats, such as sorting it, leaves it without repeats |
| Sorting.DistinctCountsOnce | src/platform/modules/module.controller.js:180-219 | an element of a list without repeats occurs at most once |
| Sorting.RepeatCountsTwice | src/platform/modules/module.controller.js:180-219 | an element found at two positions occurs at least twice |
| Sorting.SortByMembers | src/core/ui/ui.sidebar.builder.js:45 | sorting keeps exactly the members |
| Sorting.InsertSorted | src/core/ui/ui.sidebar.builder.js:45 | inserting into a sorted list keeps it sorted |
| Sorting.SortBySorted | src/core/ui/ui.sidebar.builder.js:45 | the result is sorted for a total, transitive order |
| Sorting.WithKeyCons | src/core/ui/ui.sidebar.builder.js:45 | filtering by key distributes over a leading element |
| Sorting.WithKeyInsert | src/core/ui/ui.sidebar.builder.js:45 | inserting places an element in front of the others with its key |
| Sorting.SortByStable | src/core/ui/ui.sidebar.builder.js:45 | elements with equal keys keep their input order, as `Array.prototype.sort` guarantees |
| Sorting.IntLeIsTotalOrder | src/core/ui/ui.sidebar.builder.js:45 | the numeric comparator is a total order |
| Sorting.StrLeTotal | src/platform/modules/module.controller.js:202-204 | code-point order, one collation `orderBy name` may use, compares any two strings |
| Sorting.StrLeTrans | src/platform/modules/module.controller.js:202-204 | code-point order is transitive |
| Sorting.StrLeIsTotalOrder | src/platform/modules/module.controller.js:202-204 | code-point order meets the requirement the name-ordered listings place on the collation, so that requirement can be met |

## Left out

- Token signing, token verification, password hashing and password comparison are oracles passed as functions. The "1d" token expiry lives inside the signer and is not modelled.
- Clock and calendar: `new Date()` is an integer `now`. `setDate` day arithmetic is a multiple of `Base.DAY`, so time zones, daylight-saving shifts and month rollover are not modelled.
- Audit rows and login-attempt rows are appended to sequences in the store. The audit service behind `createAuditLog` (module controller) is not part of this model, and neither are the `meta`, `ipAddress` and `userAgent` columns.
- Error texts that handlers copy from the database (`error.message`) are modelled as a reply with no message. A reply with no message also stands for a body that has no `message` field and carries data instead, such as the plan details or the tenant's module list.
- Concurrency: `Promise.all` and the store's isolation levels are not modelled. Each `$transaction` commits or aborts as a whole. Store failures are modelled only where the guards and the plan-sync handlers take a `fault` or `faulty` parameter.
- Express wiring is left out: routers, `app.js`, and an unhandled rejection in an async handler. The last of these is the `Raise` verdict.
- The permission middleware with a cache (`src/core/middlewares/permission.middleware.js`) is not modelled: its cache module is not part of this model.
- Handlers outside the authorization core are not modelled: the dashboards, the public and history plan controllers, the permission pass-through controller, tenant profile, users, branding, student CRUD and the seed script. Plan deletion, listing and update are among them.
- A request without a body, which makes destructuring `req.body` throw, is not modelled. Handlers take the body fields as optional values.
- `req.user` being absent in `requirePermission`, `rbac.middleware` and `requireModule` is not modelled; these guards always run behind an authentication guard that sets it. In `requireModule` an absent `req.user` would throw inside the `try` and answer 500.
- JavaScript object details are not modelled: integer-like keys sorting first in `Object.values`, and inherited prototype members except where a finding needs them. Field order in `{ ...obj }` copies is also left out.
- UiSidebarBuilder.BuildSidebar: the model's groups are values. A group pushed into its parent is a copy taken at that moment. This is exact for the shipped group tables, which are one level deep (`GroupTablesShallow`, `NestKeepsParented`). Aliasing through deeper tables is not captured.
- UiSidebarBuilder.BuildSidebar: `permissions` and `enabledModules` are taken as lists of strings. Other values, which make `forEach` or `includes` throw, are not modelled, nor is a `parentKey` of `null`, which `typeof` calls an object.
- SidebarService.BuildSidebar: that determinism holds for identical inputs is implicit, because the composer is a function.
- ModuleController.CreateModule: `key` and `name` are strings or absent, `isCommon` a boolean or absent (default `false`), and `tenantTypes` a list of strings (default `[]`). Other JSON values are not modelled. Duplicate tenant types count once, since the mapping table is a set of pairs.
- TenantModuleController.GetTenantModules: the context's `tenantId` is taken to be a string. An undefined or non-string value, which drops the condition or fails the query, is not modelled for this handler.
- TenantAuth.TenantLogin and PlatformAuth.SuperAdminLogin: the success body's user and tenant details are not modelled. The model returns the reply, the signed token and the principal's id.
- TenantAuth.TenantRegister: the body fields are taken as strings or absent. Other JSON values are not modelled.
- Base.ToUpper and SidebarController.EnabledModuleKeys: case mapping covers the ASCII letters only. `toUpperCase` maps every Unicode letter and can lengthen a string, so module keys with non-ASCII letters come out differently: "café" gives "CAFÉ" in the source and "CAFé" here, "ß" gives "SS" there and stays "ß" here.
- JSON numbers in request bodies are integers (`Json.JNum`). Fractional values and NaN are not modelled, so neither is their truthiness in `price || 0`. Every price and duration the backend writes is an integer.
- Store failures in handlers: the `catch` blocks that answer 500 when the database throws are not modelled for PlanController.CreatePlan, PlanController.AssignPlanToTenant, PlanController.UpdatePlanModules, PlanController.AddCommonModulesToPlan, TenantController.CreateTenant, TenantController.ToggleTenantStatus, ModuleController.CreateModule (apart from the duplicate key it models), ModuleController.ToggleTenantModule, TenantAuth.TenantLogin, PlatformAuth.SuperAdminLogin, TenantAuth.TenantRegister, RoleController.CreateRole, RoleController.AssignPermissionsToRole and the permission service. These are modelled over a store that does not fail.
- PlanController.UpdatePlanModules: `add` and `remove` are taken as lists of strings, an absent field being the empty list. Other body values are not modelled: an explicit `null` throws on `.length` and answers 500, and a value without a `length`, such as a plain object or a number, counts as an empty list. A string or a list holding non-strings goes to the query unchecked.
- PlanController.CreatePlan: `price` and `duration` are integers or absent, and `moduleKeys` a list of strings. Other JSON values are not modelled.
- PlanController.AssignPlanToTenant: `startDate` is an integer time or absent. Date strings and their parsing, including an Invalid Date, are not modelled.
- TenantController.CreateTenant and RoleController.CreateRole: the body fields are strings or absent. Other JSON values are not modelled.
- Row order of unordered queries: `findFirst` and `findMany` without `orderBy` are taken to return rows in insertion order, and an update is taken to leave a row in its place. The database guarantees no such order. This assumption decides which subscription Schema.FirstLive picks, and so the row SuperAdminMiddleware.Check attaches, the plan TenantController.Summarize reports and the subscription MeController.GetMeConfig reads.
- Logging: the `logger.info`, `logger.debug` and `logger.error` calls of the sidebar handler and the `console` output of the other handlers have no effect on replies or tables and are not modelled.
- Column defaults of the schema, such as `isActive` on a created tenant or plan, are written into the created rows as constants.

## Findings

| source | as written | input that shows it | evidently intended | confidence | as-written member | corrected member |
|---|---|---|---|---|---|---|
| src/core/middlewares/auth.middleware.js:15-17 | `authMiddleware` admits only tokens whose `type` is "TENANT", while the tenant login signs `type: "TENANT_USER"` (src/modules/auth/auth.controller.js:103) | any token returned by a successful tenant login, sent as "Bearer <token>" | tokens from the tenant login are admitted, and the context names the user, tenant and role | high, not executed | TenantTokenGate.TenantLoginTokenRefused | TenantTokenGate.AuthenticateTenantUser (with TenantTokenGate.TenantLoginTokenAdmitted) |
| src/modules/me/me.controller.js:130-140 | `map[key] \|\| "grid"` on an object literal also finds members inherited from `Object.prototype` | a module whose key is "constructor" gets the `Object` function as its icon | keys outside the five listed ones get "grid" | medium, not executed | MeController.ResolveIconAsWritten (with MeController.ConstructorKeyGetsNoIcon) | MeController.ResolveIcon |
