/**
 * The super-admin plan handlers: creating a plan, assigning it to a
 * tenant, editing its modules, seeding the default plans, pushing a plan
 * to its tenants, reading it, and adding the common modules to it.
 */
module PlanController {
  import opened Base
  import opened Schema
  import opened Db
  import opened PlanService
  import opened PlanFanOut

  // ------------------------------------------------------------------
  // Shared queries
  // ------------------------------------------------------------------

  /** `module.findMany({ where: { key: { in: keys } } })`, as ids. */
  function ModulesWithKeys(modules: map<Id, Module>, keys: seq<string>): (r: set<Id>)
    ensures forall m :: m in r <==> m in modules && modules[m].key in keys
  {
    set m | m in modules && modules[m].key in keys
  }

  /** The PlanModule rows linking a plan to the modules `ms`. */
  function Links(planId: Id, ms: set<Id>): (r: set<(Id, Id)>)
    ensures forall pm :: pm in r <==> pm.0 == planId && pm.1 in ms
  {
    set m | m in ms :: (planId, m)
  }

  /** Whether some plan already carries `name`. */
  predicate NameTaken(plans: map<Id, Plan>, name: string) {
    exists p :: p in plans && plans[p].name == name
  }

  /** Links of other plans are never written by an edit of one plan's links. */
  lemma LinksOfOthers(planId: Id, ms: set<Id>, pm: (Id, Id))
    requires pm.0 != planId
    ensures pm !in Links(planId, ms)
  {
  }

  // ------------------------------------------------------------------
  // createPlan
  // ------------------------------------------------------------------

  /** `price || 0`. */
  function StoredPrice(price: Option<int>): (p: int)
    ensures price.Some? && price.value != 0 ==> p == price.value
    ensures price.None? || price.value == 0 ==> p == 0
  {
    if price.Some? then price.value else 0
  }

  /**
   * A missing name or duration is refused, and so is a name already in
   * use. Otherwise the plan and its links to the listed modules are
   * created in one transaction; keys that name no module are skipped.
   */
  method CreatePlan(st: Store, name: Option<string>, price: Option<int>, duration: Option<int>, moduleKeys: seq<string>)
    returns (r: Reply, planId: Option<Id>)
    requires st.Valid()
    modifies st`plans, st`planModules
    ensures st.Valid()
    ensures !Filled(name) || duration.None? ==> r == Reply(400, Some("Name and duration are required"))
    ensures Filled(name) && duration.Some? && NameTaken(old(st.plans), name.value) ==>
              r == Reply(400, Some("Plan with name '" + name.value + "' already exists"))
    ensures r.status == 201 <==> Filled(name) && duration.Some? && !NameTaken(old(st.plans), name.value)
    ensures r.status != 201 ==>
              r.status == 400 && planId.None? && st.plans == old(st.plans) && st.planModules == old(st.planModules)
    ensures r.status == 201 ==>
              r.message == Some("Plan created successfully") &&
              planId.Some? && planId.value !in old(st.plans) &&
              st.plans == old(st.plans)[planId.value := Plan(name.value, StoredPrice(price), duration.value, true)] &&
              st.planModules == old(st.planModules) + Links(planId.value, ModulesWithKeys(st.modules, moduleKeys))
  {
    if !Filled(name) || duration.None? {
      return Reply(400, Some("Name and duration are required")), None;
    }
    if NameTaken(st.plans, name.value) {
      return Reply(400, Some("Plan with name '" + name.value + "' already exists")), None;
    }
    var id := NewId(st.plans.Keys);
    st.plans := st.plans[id := Plan(name.value, StoredPrice(price), duration.value, true)];
    if |moduleKeys| > 0 {
      st.planModules := st.planModules + Links(id, ModulesWithKeys(st.modules, moduleKeys));
    }
    r, planId := Reply(201, Some("Plan created successfully")), Some(id);
  }

  // ------------------------------------------------------------------
  // assignPlanToTenant
  // ------------------------------------------------------------------

  /** The `updateMany` that cancels every ACTIVE subscription of a tenant. */
  function CancelActive(subs: seq<Subscription>, t: Id): (r: seq<Subscription>)
    ensures |r| == |subs|
    ensures forall i :: 0 <= i < |subs| && (subs[i].tenantId != t || subs[i].status != Active) ==> r[i] == subs[i]
    ensures forall i :: 0 <= i < |subs| && subs[i].tenantId == t && subs[i].status == Active ==>
              r[i] == subs[i].(status := Cancelled)
  {
    seq(|subs|, i requires 0 <= i < |subs| =>
      if subs[i].tenantId == t && subs[i].status == Active then subs[i].(status := Cancelled) else subs[i])
  }

  /** `planId` names an active plan. */
  predicate Assignable(plans: map<Id, Plan>, planId: Option<Json>) {
    planId.Some? && planId.value.JStr? && planId.value.s in plans && plans[planId.value.s].isActive
  }

  /** `startDate ? new Date(startDate) : new Date()`: an absent or zero start date means now. */
  function StartOf(startDate: Option<int>, now: int): (s: int)
    ensures startDate.Some? && startDate.value != 0 ==> s == startDate.value
    ensures startDate.None? || startDate.value == 0 ==> s == now
  {
    if startDate.Some? && startDate.value != 0 then startDate.value else now
  }

  /** The subscription table after an assignment. */
  function Reassigned(subs: seq<Subscription>, t: Id, p: Id, start: int, days: int): seq<Subscription> {
    CancelActive(subs, t) + [Subscription(t, p, Active, start, start + days * DAY)]
  }

  /**
   * After an assignment the new subscription is the tenant's only ACTIVE
   * one, and no other tenant's subscription has changed.
   */
  lemma AssignedIsTheOnlyActive(subs: seq<Subscription>, t: Id, p: Id, start: int, days: int)
    ensures var after := Reassigned(subs, t, p, start, days);
            forall i :: 0 <= i < |after| && after[i].tenantId == t && after[i].status == Active ==> i == |subs|
    ensures var after := Reassigned(subs, t, p, start, days);
            forall i :: 0 <= i < |subs| && subs[i].tenantId != t ==> after[i] == subs[i]
  {
  }

  /**
   * A `planId` that is not a string fails the query; a plan that is missing
   * or inactive is refused. Otherwise one transaction cancels the tenant's
   * ACTIVE subscriptions, adds the new one and syncs the tenant's modules;
   * for a tenant that does not exist the foreign key aborts it.
   */
  method AssignPlanToTenant(st: Store, tenantId: Id, planId: Option<Json>, startDate: Option<int>, now: int)
    returns (r: Reply)
    requires st.Valid()
    modifies st`subscriptions, st`tenantModules
    ensures st.Valid()
    ensures !(planId.Some? && planId.value.JStr?) ==> r == Reply(500, None)
    ensures planId.Some? && planId.value.JStr? && !Assignable(st.plans, planId) ==>
              r == Reply(400, Some("Invalid or inactive plan"))
    ensures Assignable(st.plans, planId) && tenantId !in st.tenants ==> r == Reply(500, None)
    ensures r.status == 200 <==> Assignable(st.plans, planId) && tenantId in st.tenants
    ensures r.status != 200 ==> st.subscriptions == old(st.subscriptions) && st.tenantModules == old(st.tenantModules)
    ensures r.status == 200 ==>
              var p := planId.value.s;
              r.message == Some("Plan assigned successfully") &&
              st.subscriptions == Reassigned(old(st.subscriptions), tenantId, p, StartOf(startDate, now), st.plans[p].duration) &&
              st.tenantModules == Synced(old(st.tenantModules), tenantId, PlanModuleIds(st.planModules, p))
  {
    if !(planId.Some? && planId.value.JStr?) {
      return Reply(500, None);
    }
    if !Assignable(st.plans, planId) {
      return Reply(400, Some("Invalid or inactive plan"));
    }
    if tenantId !in st.tenants {
      // the subscription's foreign key aborts the transaction
      return Reply(500, None);
    }
    var p := planId.value.s;
    var start := StartOf(startDate, now);
    st.subscriptions := Reassigned(st.subscriptions, tenantId, p, start, st.plans[p].duration);
    var ok := SyncTenantModulesFromPlan(st, tenantId, p);
    r := Reply(200, Some("Plan assigned successfully"));
  }

  // ------------------------------------------------------------------
  // updatePlanModules
  // ------------------------------------------------------------------

  /** The links after adding `toAdd` and then removing `toRemove`. */
  function EditedLinks(pms: set<(Id, Id)>, planId: Id, toAdd: set<Id>, toRemove: set<Id>): set<(Id, Id)> {
    (pms + Links(planId, toAdd)) - Links(planId, toRemove)
  }

  /**
   * The plan is linked to a module afterwards iff it is added, or was linked
   * before, and is not removed; removal wins over addition. Other plans'
   * links do not change.
   */
  lemma EditedLinksEffect(pms: set<(Id, Id)>, planId: Id, toAdd: set<Id>, toRemove: set<Id>, pm: (Id, Id))
    ensures pm.0 == planId ==>
              (pm in EditedLinks(pms, planId, toAdd, toRemove) <==> (pm in pms || pm.1 in toAdd) && pm.1 !in toRemove)
    ensures pm.0 != planId ==> (pm in EditedLinks(pms, planId, toAdd, toRemove) <==> pm in pms)
  {
  }

  /** Repeating an edit changes nothing further. */
  lemma EditIdempotent(pms: set<(Id, Id)>, planId: Id, toAdd: set<Id>, toRemove: set<Id>)
    ensures var once := EditedLinks(pms, planId, toAdd, toRemove);
            EditedLinks(once, planId, toAdd, toRemove) == once
  {
    var once := EditedLinks(pms, planId, toAdd, toRemove);
    forall pm | pm in EditedLinks(once, planId, toAdd, toRemove)
      ensures pm in once
    {
      EditedLinksEffect(once, planId, toAdd, toRemove, pm);
    }
  }

  /** Adding links the plan already has, and removing nothing, leaves the table as it was. */
  lemma ReAddIsNoOp(pms: set<(Id, Id)>, planId: Id, toAdd: set<Id>)
    requires forall m :: m in toAdd ==> (planId, m) in pms
    ensures EditedLinks(pms, planId, toAdd, {}) == pms
  {
    assert Links(planId, {}) == {};
  }

  /**
   * Both key lists are resolved to modules first; adding to a plan that
   * does not exist violates the foreign key and rolls the edit back.
   */
  method UpdatePlanModules(st: Store, planId: Id, add: seq<string>, remove: seq<string>) returns (r: Reply)
    requires st.Valid()
    modifies st`planModules
    ensures st.Valid()
    ensures var toAdd := ModulesWithKeys(st.modules, add);
            toAdd != {} && planId !in st.plans ==>
              r == Reply(500, Some("Failed to update plan modules")) && st.planModules == old(st.planModules)
    ensures var toAdd := ModulesWithKeys(st.modules, add);
            !(toAdd != {} && planId !in st.plans) ==>
              r == Reply(200, Some("Plan modules updated successfully")) &&
              st.planModules == EditedLinks(old(st.planModules), planId, toAdd, ModulesWithKeys(st.modules, remove))
  {
    var toAdd := if |add| > 0 then ModulesWithKeys(st.modules, add) else {};
    var toRemove := if |remove| > 0 then ModulesWithKeys(st.modules, remove) else {};
    if toAdd != {} && planId !in st.plans {
      return Reply(500, Some("Failed to update plan modules"));
    }
    st.planModules := EditedLinks(st.planModules, planId, toAdd, toRemove);
    r := Reply(200, Some("Plan modules updated successfully"));
  }

  // ------------------------------------------------------------------
  // setupDefaultPlans
  // ------------------------------------------------------------------

  const DefaultPlans: seq<Plan> := [
    Plan("TRIAL", 0, 30, true),
    Plan("BASIC", 99, 30, true),
    Plan("PREMIUM", 299, 30, true)
  ]

  /** Plan names are unique, as the `name` column is. */
  ghost predicate UniqueNames(plans: map<Id, Plan>) {
    forall p, q :: p in plans && q in plans && plans[p].name == plans[q].name ==> p == q
  }

  /** One `upsert({ where: { name }, update: {}, create })`. */
  method UpsertByName(plans: map<Id, Plan>, d: Plan) returns (r: map<Id, Plan>)
    ensures forall p :: p in plans ==> p in r && r[p] == plans[p]
    ensures NameTaken(r, d.name)
    ensures forall p :: p in r && p !in plans ==> r[p] == d && !NameTaken(plans, d.name)
    ensures NameTaken(plans, d.name) ==> r == plans
    ensures UniqueNames(plans) ==> UniqueNames(r)
  {
    if NameTaken(plans, d.name) {
      return plans;
    }
    var id := NewId(plans.Keys);
    r := plans[id := d];
    assert r[id].name == d.name;
  }

  /**
   * The loop of upserts over `ds`: existing plans are kept as they are, and
   * each name not yet taken gets a new plan, so names stay unique.
   */
  method UpsertEach(before: map<Id, Plan>, ds: seq<Plan>) returns (plans: map<Id, Plan>)
    requires UniqueNames(before)
    ensures UniqueNames(plans)
    ensures forall p :: p in before ==> p in plans && plans[p] == before[p]
    ensures forall i :: 0 <= i < |ds| ==> NameTaken(plans, ds[i].name)
    ensures forall p :: p in plans && p !in before ==> plans[p] in ds && !NameTaken(before, plans[p].name)
    ensures (forall i :: 0 <= i < |ds| ==> NameTaken(before, ds[i].name)) ==> plans == before
  {
    plans := before;
    var i := 0;
    while i < |ds|
      invariant 0 <= i <= |ds|
      invariant UniqueNames(plans)
      invariant forall p :: p in before ==> p in plans && plans[p] == before[p]
      invariant forall j :: 0 <= j < i ==> NameTaken(plans, ds[j].name)
      invariant forall p :: p in plans && p !in before ==> plans[p] in ds[..i] && !NameTaken(before, plans[p].name)
      invariant (forall j :: 0 <= j < |ds| ==> NameTaken(before, ds[j].name)) ==> plans == before
    {
      var next := UpsertByName(plans, ds[i]);
      forall name | NameTaken(before, name)
        ensures NameTaken(plans, name)
      {
        var q :| q in before && before[q].name == name;
        assert plans[q].name == name;
      }
      assert ds[..i + 1] == ds[..i] + [ds[i]];
      plans := next;
      i := i + 1;
    }
    assert ds[..i] == ds;
  }

  /**
   * An `upsert` by name with an empty update per default plan: a name that
   * exists keeps its plan as it is, a missing one is created.
   */
  method SetupDefaultPlans(st: Store) returns (r: Reply)
    requires st.Valid()
    modifies st`plans
    ensures st.Valid()
    ensures r == Reply(200, Some("Default plans setup successfully"))
    ensures forall p :: p in old(st.plans) ==> p in st.plans && st.plans[p] == old(st.plans)[p]
    ensures forall i :: 0 <= i < |DefaultPlans| ==> NameTaken(st.plans, DefaultPlans[i].name)
    ensures forall p :: p in st.plans && p !in old(st.plans) ==>
              st.plans[p] in DefaultPlans && !NameTaken(old(st.plans), st.plans[p].name)
    ensures (forall i :: 0 <= i < |DefaultPlans| ==> NameTaken(old(st.plans), DefaultPlans[i].name)) ==>
              st.plans == old(st.plans)
  {
    var plans := UpsertEach(st.plans, DefaultPlans);
    st.plans := plans;
    r := Reply(200, Some("Default plans setup successfully"));
  }

  // ------------------------------------------------------------------
  // syncPlanToTenants
  // ------------------------------------------------------------------

  /**
   * One transaction per tenant, in the order of the plan's ACTIVE
   * subscriptions. The tenants in `faulty` are those whose transaction the
   * database aborts; the first of them ends the loop with a 500 and the
   * tenants synced before it stay synced. The success message carries the
   * count, which is returned as `updatedCount`.
   */
  method SyncPlanToTenants(st: Store, planId: Id, mode: Option<Json>, faulty: set<Id>)
    returns (r: Reply, updatedCount: nat, echoedMode: Option<Json>)
    requires st.Valid()
    modifies st`tenantModules
    ensures st.Valid()
    ensures var ts := ActiveTenantsOf(st.subscriptions, planId);
            ts == [] ==>
              r == Reply(200, Some("No active tenants on this plan")) && updatedCount == 0 && echoedMode.None? &&
              st.tenantModules == old(st.tenantModules)
    ensures var ts := ActiveTenantsOf(st.subscriptions, planId);
            ts != [] ==>
              updatedCount == FirstFaulty(ts, faulty) &&
              st.tenantModules == SyncAll(old(st.tenantModules), ts[..updatedCount], PlanModuleIds(st.planModules, planId))
    ensures var ts := ActiveTenantsOf(st.subscriptions, planId);
            ts != [] && updatedCount == |ts| ==> r == Reply(200, Some(SyncedMessage(|ts|))) && echoedMode == Some(ModeOf(mode))
    ensures var ts := ActiveTenantsOf(st.subscriptions, planId);
            ts != [] && updatedCount < |ts| ==>
              r == Reply(500, Some("Failed to sync plan to tenants")) && echoedMode.None?
  {
    var ts := ActiveTenantsOf(st.subscriptions, planId);
    if ts == [] {
      return Reply(200, Some("No active tenants on this plan")), 0, None;
    }
    forall t | t in ts
      ensures t in st.tenants
    {
      ActiveTenantsExist(st, planId, t);
    }
    updatedCount := SyncEach(st, ts, planId, faulty);
    if updatedCount < |ts| {
      return Reply(500, Some("Failed to sync plan to tenants")), updatedCount, None;
    }
    r, echoedMode := Reply(200, Some(SyncedMessage(updatedCount))), Some(ModeOf(mode));
  }

  // ------------------------------------------------------------------
  // getPlanDetails
  // ------------------------------------------------------------------

  /** A plan with the modules linked to it. */
  datatype PlanView = PlanView(plan: Plan, modules: map<Id, Module>)

  /** The plan and its linked modules, or `None` for an unknown id. */
  function PlanDetails(plans: map<Id, Plan>, pms: set<(Id, Id)>, modules: map<Id, Module>, planId: Id): (v: Option<PlanView>)
    ensures v.Some? <==> planId in plans
    ensures v.Some? ==> v.value.plan == plans[planId]
    ensures v.Some? ==> forall m :: m in v.value.modules <==> (planId, m) in pms && m in modules
    ensures v.Some? ==> forall m :: m in v.value.modules ==> v.value.modules[m] == modules[m]
  {
    if planId in plans then
      Some(PlanView(plans[planId], map m | m in modules && (planId, m) in pms :: modules[m]))
    else None
  }

  /** Over a consistent store the view lists exactly the plan's linked modules. */
  lemma DetailsListTheLinks(st: Store, planId: Id)
    requires st.Valid() && planId in st.plans
    ensures PlanDetails(st.plans, st.planModules, st.modules, planId).value.modules.Keys == PlanModuleIds(st.planModules, planId)
  {
  }

  method GetPlanDetails(st: Store, planId: Id) returns (r: Reply, view: Option<PlanView>)
    ensures view == PlanDetails(st.plans, st.planModules, st.modules, planId)
    ensures view.None? <==> r == Reply(404, Some("Plan not found"))
    ensures view.Some? ==> r == Reply(200, None)
  {
    view := PlanDetails(st.plans, st.planModules, st.modules, planId);
    r := if view.None? then Reply(404, Some("Plan not found")) else Reply(200, None);
  }

  // ------------------------------------------------------------------
  // addCommonModulesToPlan
  // ------------------------------------------------------------------

  function CommonModuleIds(modules: map<Id, Module>): (r: set<Id>)
    ensures forall m :: m in r <==> m in modules && modules[m].isCommon
  {
    set m | m in modules && modules[m].isCommon
  }

  /**
   * Links every common module to the plan, skipping links that exist; with
   * no common module nothing is written, so even an unknown plan succeeds.
   */
  method AddCommonModulesToPlan(st: Store, planId: Id) returns (r: Reply)
    requires st.Valid()
    modifies st`planModules
    ensures st.Valid()
    ensures CommonModuleIds(st.modules) == {} ==>
              r == Reply(200, Some("No common modules to add")) && st.planModules == old(st.planModules)
    ensures CommonModuleIds(st.modules) != {} && planId !in st.plans ==>
              r == Reply(500, Some("Failed to add common modules to plan")) && st.planModules == old(st.planModules)
    ensures CommonModuleIds(st.modules) != {} && planId in st.plans ==>
              r == Reply(200, Some("Common modules added to plan successfully")) &&
              st.planModules == old(st.planModules) + Links(planId, CommonModuleIds(st.modules))
  {
    var common := CommonModuleIds(st.modules);
    if common == {} {
      return Reply(200, Some("No common modules to add"));
    }
    if planId !in st.plans {
      return Reply(500, Some("Failed to add common modules to plan"));
    }
    st.planModules := st.planModules + Links(planId, common);
    r := Reply(200, Some("Common modules added to plan successfully"));
  }

  /** Afterwards every common module is linked to the plan, and no other link changed. */
  lemma CommonModulesLinked(pms: set<(Id, Id)>, planId: Id, modules: map<Id, Module>, pm: (Id, Id))
    ensures pm in pms + Links(planId, CommonModuleIds(modules)) <==>
              pm in pms || (pm.0 == planId && pm.1 in modules && modules[pm.1].isCommon)
  {
  }
}
