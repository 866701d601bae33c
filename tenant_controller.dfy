/**
 * The super-admin tenant handlers: onboarding a tenant in one
 * transaction, listing tenants with their current plan, and switching a
 * tenant on or off.
 */
module TenantController {
  import opened Base
  import opened Schema
  import opened Db
  import opened PlanService
  import opened Sorting

  // ------------------------------------------------------------------
  // createTenant
  // ------------------------------------------------------------------

  /** An active plan named TRIAL. */
  predicate IsTrial(plans: map<Id, Plan>, p: Id) {
    p in plans && plans[p].name == "TRIAL" && plans[p].isActive
  }

  predicate TrialConfigured(plans: map<Id, Plan>) {
    exists p :: p in plans && IsTrial(plans, p)
  }

  /** `plan.findFirst({ where: { name: "TRIAL", isActive: true } })`. */
  method FindTrialPlan(plans: map<Id, Plan>) returns (p: Option<Id>)
    ensures p.Some? ==> IsTrial(plans, p.value)
    ensures p.None? <==> !TrialConfigured(plans)
  {
    var ids := Enumerate(plans.Keys);
    var i := 0;
    while i < |ids|
      invariant 0 <= i <= |ids|
      invariant forall j :: 0 <= j < i ==> !IsTrial(plans, ids[j])
    {
      if IsTrial(plans, ids[i]) {
        return Some(ids[i]);
      }
      i := i + 1;
    }
    p := None;
  }

  /** Whether a user already has the e-mail address. */
  predicate EmailTaken(users: map<Id, User>, email: string) {
    exists u :: u in users && users[u].email == email
  }

  /** The enabled TenantModule rows created for a new tenant: one per module of the trial plan. */
  function TrialRows(t: Id, ms: set<Id>): (r: map<(Id, Id), TenantModule>)
    ensures r.Keys == RowKeys(t, ms)
    ensures forall k :: k in r ==> r[k] == TenantModule(true, None)
  {
    map k | k in RowKeys(t, ms) :: TenantModule(true, None)
  }

  /** What onboarding created, for the caller to refer to. */
  datatype Onboarded = Onboarded(tenantId: Id, roleId: Id, userId: Id, planId: Id)

  /**
   * A new tenant starts with exactly the trial plan's modules enabled, and
   * the rows of existing tenants are untouched.
   */
  lemma OnboardedModules(tms: map<(Id, Id), TenantModule>, t: Id, ms: set<Id>, k: (Id, Id))
    requires forall k' :: k' in tms ==> k'.0 != t
    ensures k.0 == t ==> (k in tms + TrialRows(t, ms) && (tms + TrialRows(t, ms))[k].enabled <==> k.1 in ms)
    ensures k.0 != t ==> (k in tms + TrialRows(t, ms) <==> k in tms)
    ensures k.0 != t && k in tms ==> (tms + TrialRows(t, ms))[k] == tms[k]
  {
  }

  /** Step 1: the tenant row. */
  method AddTenant(st: Store, t: Id, tenant: Tenant)
    requires st.Valid() && t !in st.tenants
    modifies st`tenants
    ensures st.Valid()
    ensures st.tenants == old(st.tenants)[t := tenant]
  {
    st.tenants := st.tenants[t := tenant];
  }

  /** Steps 2 and 3: the "Admin" role of the tenant and the admin user holding it. */
  method AddAdmin(st: Store, t: Id, role: Id, user: Id, admin: User)
    requires st.Valid() && t in st.tenants && role !in st.roles && user !in st.users
    requires admin.tenantId == Some(t) && admin.roleId == Some(role) && !EmailTaken(st.users, admin.email)
    modifies st`roles, st`users
    ensures st.Valid()
    ensures st.roles == old(st.roles)[role := Role("Admin", Some(t))]
    ensures st.users == old(st.users)[user := admin]
  {
    st.roles := st.roles[role := Role("Admin", Some(t))];
    st.users := st.users[user := admin];
  }

  /** Step 5: the subscription. */
  method AddSubscription(st: Store, s: Subscription)
    requires st.Valid() && s.tenantId in st.tenants && s.planId in st.plans
    modifies st`subscriptions
    ensures st.Valid()
    ensures st.subscriptions == old(st.subscriptions) + [s]
  {
    st.subscriptions := st.subscriptions + [s];
  }

  /** Step 6: the enabled rows of the trial plan's modules. */
  method AddTrialRows(st: Store, t: Id, p: Id)
    requires st.Valid() && t in st.tenants
    modifies st`tenantModules
    ensures st.Valid()
    ensures st.tenantModules == old(st.tenantModules) + TrialRows(t, PlanModuleIds(st.planModules, p))
  {
    assert PlanModuleIds(st.planModules, p) <= st.modules.Keys by {
      assert st.PlanModulesValid();
    }
    st.SetTenantModules(st.tenantModules + TrialRows(t, PlanModuleIds(st.planModules, p)));
  }

  /** Steps 1-3 of a committed onboarding: the tenant, its "Admin" role and its admin user. */
  method CreateOwners(st: Store, tenant: Tenant, email: string, password: string) returns (t: Id, role: Id, user: Id)
    requires st.Valid() && !EmailTaken(st.users, email)
    modifies st`tenants, st`roles, st`users
    ensures st.Valid()
    ensures t !in old(st.tenants) && role !in old(st.roles) && user !in old(st.users)
    ensures st.tenants == old(st.tenants)[t := tenant]
    ensures st.roles == old(st.roles)[role := Role("Admin", Some(t))]
    ensures st.users == old(st.users)[user := User(email, password, Some(t), Some(role), true, 0, None)]
  {
    t := NewId(st.tenants.Keys);
    role := NewId(st.roles.Keys);
    user := NewId(st.users.Keys);
    AddTenant(st, t, tenant);
    AddAdmin(st, t, role, user, User(email, password, Some(t), Some(role), true, 0, None));
  }

  /** Steps 5-7 of a committed onboarding: the subscription, the module rows and the audit entry. */
  method StartTrial(st: Store, t: Id, p: Id, now: int)
    requires st.Valid() && t in st.tenants && IsTrial(st.plans, p)
    modifies st`subscriptions, st`tenantModules, st`auditLog
    ensures st.Valid()
    ensures st.subscriptions == old(st.subscriptions) + [Subscription(t, p, Active, now, now + st.plans[p].duration * DAY)]
    ensures st.tenantModules == old(st.tenantModules) + TrialRows(t, PlanModuleIds(st.planModules, p))
    ensures st.auditLog == old(st.auditLog) + [AuditEntry("SUPER_ADMIN", "TENANT_CREATED", "TENANT", t)]
  {
    AddSubscription(st, Subscription(t, p, Active, now, now + st.plans[p].duration * DAY));
    AddTrialRows(st, t, p);
    st.auditLog := st.auditLog + [AuditEntry("SUPER_ADMIN", "TENANT_CREATED", "TENANT", t)];
  }

  /**
   * A missing field is refused before anything is written. The transaction
   * then creates the tenant, its "Admin" role and its admin user, looks up
   * the TRIAL plan, and adds the subscription, the module rows and the
   * audit entry. An e-mail already in use, or a missing TRIAL plan, aborts
   * it and nothing persists. `hash` stands for the password hashing.
   */
  method CreateTenant(st: Store, name: Option<string>, tenantType: Option<string>,
                      adminEmail: Option<string>, adminPassword: Option<string>,
                      hash: string -> string, now: int)
    returns (r: Reply, created: Option<Onboarded>)
    requires st.Valid()
    modifies st`tenants, st`roles, st`users, st`subscriptions, st`tenantModules, st`auditLog
    ensures st.Valid()
    ensures !(Filled(name) && Filled(tenantType) && Filled(adminEmail) && Filled(adminPassword)) ==>
              r == Reply(400, Some("All fields are required"))
    ensures Filled(name) && Filled(tenantType) && Filled(adminEmail) && Filled(adminPassword) &&
            EmailTaken(old(st.users), adminEmail.value) ==>
              r == Reply(500, None)
    ensures Filled(name) && Filled(tenantType) && Filled(adminEmail) && Filled(adminPassword) &&
            !EmailTaken(old(st.users), adminEmail.value) && !TrialConfigured(st.plans) ==>
              r == Reply(500, Some("Trial plan not configured"))
    ensures r.status == 201 <==>
              Filled(name) && Filled(tenantType) && Filled(adminEmail) && Filled(adminPassword) &&
              !EmailTaken(old(st.users), adminEmail.value) && TrialConfigured(st.plans)
    ensures r.status != 201 ==>
              created.None? &&
              st.tenants == old(st.tenants) && st.roles == old(st.roles) && st.users == old(st.users) &&
              st.subscriptions == old(st.subscriptions) && st.tenantModules == old(st.tenantModules) &&
              st.auditLog == old(st.auditLog)
    ensures r.status == 201 ==>
              r.message == Some("Tenant onboarded successfully") && created.Some? &&
              var o := created.value;
              o.tenantId !in old(st.tenants) && o.roleId !in old(st.roles) && o.userId !in old(st.users) &&
              IsTrial(st.plans, o.planId) &&
              st.tenants == old(st.tenants)[o.tenantId := Tenant(name.value, tenantType.value, true, now)] &&
              st.roles == old(st.roles)[o.roleId := Role("Admin", Some(o.tenantId))] &&
              st.users == old(st.users)[o.userId :=
                User(adminEmail.value, hash(adminPassword.value), Some(o.tenantId), Some(o.roleId), true, 0, None)] &&
              st.subscriptions == old(st.subscriptions) +
                [Subscription(o.tenantId, o.planId, Active, now, now + st.plans[o.planId].duration * DAY)] &&
              st.tenantModules == old(st.tenantModules) + TrialRows(o.tenantId, PlanModuleIds(st.planModules, o.planId)) &&
              st.auditLog == old(st.auditLog) + [AuditEntry("SUPER_ADMIN", "TENANT_CREATED", "TENANT", o.tenantId)]
  {
    if !(Filled(name) && Filled(tenantType) && Filled(adminEmail) && Filled(adminPassword)) {
      return Reply(400, Some("All fields are required")), None;
    }
    var password := hash(adminPassword.value);
    // step 3 fails on a taken e-mail, which the unique column refuses
    if EmailTaken(st.users, adminEmail.value) {
      return Reply(500, None), None;
    }
    // step 4: the trial plan, looked up before the writes; as a failure rolls them back, the order does not show
    var trial := FindTrialPlan(st.plans);
    if trial.None? {
      return Reply(500, Some("Trial plan not configured")), None;
    }
    var t, role, user := CreateOwners(st, Tenant(name.value, tenantType.value, true, now), adminEmail.value, password);
    StartTrial(st, t, trial.value, now);
    r, created := Reply(201, Some("Tenant onboarded successfully")), Some(Onboarded(t, role, user, trial.value));
  }

  // ------------------------------------------------------------------
  // listTenants
  // ------------------------------------------------------------------

  /** The tenant's first subscription that is ACTIVE and not past its end (`gte`) at `now`. */
  function FirstCurrent(subs: seq<Subscription>, t: Id, now: int): Option<nat> {
    FirstLive(subs, IdIs(t), now, false)
  }

  /** One row of the tenant list. */
  datatype TenantSummary = TenantSummary(
    id: Id,
    name: string,
    tenantType: string,
    isActive: bool,
    createdAt: int,
    plan: string,
    expiresAt: Option<int>)

  /** The projection of one tenant: its first current subscription names the plan, else "NONE" and no expiry. */
  function Summarize(id: Id, tenant: Tenant, subs: seq<Subscription>, plans: map<Id, Plan>, now: int): (s: TenantSummary)
    requires forall i :: 0 <= i < |subs| ==> subs[i].planId in plans
    ensures s.id == id && s.name == tenant.name && s.tenantType == tenant.tenantType
    ensures s.isActive == tenant.isActive && s.createdAt == tenant.createdAt
    ensures FirstCurrent(subs, id, now).None? ==> s.plan == "NONE" && s.expiresAt.None?
    ensures FirstCurrent(subs, id, now).Some? ==>
              var sub := subs[FirstCurrent(subs, id, now).value];
              s.plan == plans[sub.planId].name && s.expiresAt == Some(sub.endDate)
  {
    match FirstCurrent(subs, id, now)
    case None => TenantSummary(id, tenant.name, tenant.tenantType, tenant.isActive, tenant.createdAt, "NONE", None)
    case Some(k) =>
      TenantSummary(id, tenant.name, tenant.tenantType, tenant.isActive, tenant.createdAt,
                    plans[subs[k].planId].name, Some(subs[k].endDate))
  }

  /** `orderBy: { createdAt: "desc" }` as an ascending sort on the negated key. */
  function NewestFirst(s: TenantSummary): int { -s.createdAt }

  /**
   * Every tenant appears exactly once, newest first, with its summary. The
   * store returns ties in an order it chooses; here that is the
   * enumeration order of the ids.
   */
  method ListTenants(st: Store, now: int) returns (rows: seq<TenantSummary>)
    requires st.Valid()
    ensures |rows| == |st.tenants|
    ensures SortedBy(rows, NewestFirst, IntLe)
    ensures forall id :: id in st.tenants ==>
              Summarize(id, st.tenants[id], st.subscriptions, st.plans, now) in rows
    ensures forall k :: 0 <= k < |rows| ==>
              rows[k].id in st.tenants && rows[k] == Summarize(rows[k].id, st.tenants[rows[k].id], st.subscriptions, st.plans, now)
  {
    var ids := Enumerate(st.tenants.Keys);
    rows := SortedSummaries(ids, st.tenants, st.subscriptions, st.plans, now);
  }

  /** The projection loop: one summary per id, in order. */
  method SummarizeEach(ids: seq<Id>, tenants: map<Id, Tenant>, subs: seq<Subscription>, plans: map<Id, Plan>, now: int)
    returns (summaries: seq<TenantSummary>)
    requires forall i :: 0 <= i < |subs| ==> subs[i].planId in plans
    requires forall k :: 0 <= k < |ids| ==> ids[k] in tenants
    ensures |summaries| == |ids|
    ensures forall k :: 0 <= k < |ids| ==> summaries[k] == Summarize(ids[k], tenants[ids[k]], subs, plans, now)
  {
    summaries := [];
    var i := 0;
    while i < |ids|
      invariant 0 <= i <= |ids|
      invariant |summaries| == i
      invariant forall k :: 0 <= k < i ==> summaries[k] == Summarize(ids[k], tenants[ids[k]], subs, plans, now)
    {
      summaries := summaries + [Summarize(ids[i], tenants[ids[i]], subs, plans, now)];
      i := i + 1;
    }
  }

  /** The summaries of `ids`, sorted newest first. */
  method SortedSummaries(ids: seq<Id>, tenants: map<Id, Tenant>, subs: seq<Subscription>, plans: map<Id, Plan>, now: int)
    returns (rows: seq<TenantSummary>)
    requires forall i :: 0 <= i < |subs| ==> subs[i].planId in plans
    requires forall id :: id in ids <==> id in tenants
    requires forall i, j :: 0 <= i < j < |ids| ==> ids[i] != ids[j]
    ensures |rows| == |ids|
    ensures SortedBy(rows, NewestFirst, IntLe)
    ensures forall id :: id in tenants ==> Summarize(id, tenants[id], subs, plans, now) in rows
    ensures forall k :: 0 <= k < |rows| ==>
              rows[k].id in tenants && rows[k] == Summarize(rows[k].id, tenants[rows[k].id], subs, plans, now)
  {
    var summaries := SummarizeEach(ids, tenants, subs, plans, now);
    rows := SortBy(summaries, NewestFirst, IntLe);
    IntLeIsTotalOrder();
    SortBySorted(summaries, NewestFirst, IntLe);
    SortByMembers(summaries, NewestFirst, IntLe);
    forall id | id in tenants
      ensures Summarize(id, tenants[id], subs, plans, now) in rows
    {
      var k :| 0 <= k < |ids| && ids[k] == id;
      assert summaries[k] in summaries;
    }
    forall k | 0 <= k < |rows|
      ensures rows[k].id in tenants && rows[k] == Summarize(rows[k].id, tenants[rows[k].id], subs, plans, now)
    {
      assert rows[k] in summaries;
    }
  }

  // ------------------------------------------------------------------
  // toggleTenantStatus
  // ------------------------------------------------------------------

  /**
   * `isActive` is written as given: a boolean is stored, an absent value
   * leaves the column as it is, and any other value fails validation. The
   * audit row and the message follow the truthiness of the value, so an
   * absent value is logged as a deactivation. An unknown tenant fails the
   * update.
   */
  method ToggleTenantStatus(st: Store, tenantId: Id, isActive: Option<Json>) returns (r: Reply)
    requires st.Valid()
    modifies st`tenants, st`auditLog
    ensures st.Valid()
    ensures r.status == 200 <==> tenantId in old(st.tenants) && (isActive.None? || isActive.value.JBool?)
    ensures r.status != 200 ==>
              r == Reply(500, Some("Failed to update tenant status")) &&
              st.tenants == old(st.tenants) && st.auditLog == old(st.auditLog)
    ensures r.status == 200 && isActive.None? ==> st.tenants == old(st.tenants)
    ensures r.status == 200 && isActive.Some? ==>
              st.tenants == old(st.tenants)[tenantId := old(st.tenants)[tenantId].(isActive := isActive.value.b)]
    ensures r.status == 200 && Present(isActive) ==>
              r.message == Some("Tenant activated successfully") &&
              st.auditLog == old(st.auditLog) + [AuditEntry("SUPER_ADMIN", "TENANT_ACTIVATED", "TENANT", tenantId)]
    ensures r.status == 200 && !Present(isActive) ==>
              r.message == Some("Tenant deactivated successfully") &&
              st.auditLog == old(st.auditLog) + [AuditEntry("SUPER_ADMIN", "TENANT_DEACTIVATED", "TENANT", tenantId)]
  {
    if tenantId !in st.tenants || !(isActive.None? || isActive.value.JBool?) {
      return Reply(500, Some("Failed to update tenant status"));
    }
    if isActive.Some? {
      st.tenants := st.tenants[tenantId := st.tenants[tenantId].(isActive := isActive.value.b)];
    }
    var action := if Present(isActive) then "TENANT_ACTIVATED" else "TENANT_DEACTIVATED";
    st.auditLog := st.auditLog + [AuditEntry("SUPER_ADMIN", action, "TENANT", tenantId)];
    r := Reply(200, Some(if Present(isActive) then "Tenant activated successfully" else "Tenant deactivated successfully"));
  }
}
