/**
 * The tenant's own module overview: every catalog module with whether
 * the current plan allows it, whether it is switched on, and the status
 * shown to the tenant.
 */
module TenantModuleController {
  import opened Base
  import opened Schema
  import opened Db
  import opened PlanService
  import opened Sorting

  datatype Status = ActiveStatus | Disabled | Locked

  datatype ModuleStatus = ModuleStatus(
    id: Id,
    key: string,
    name: string,
    isCommon: bool,
    allowedByPlan: bool,
    enabled: bool,
    status: Status)

  /** `tenantModuleMap.get(id) ?? false`: the tenant's row flag, false without a row. */
  function RowFlag(tms: map<(Id, Id), TenantModule>, t: Id, m: Id): bool {
    (t, m) in tms && tms[(t, m)].enabled
  }

  /** The entry of one catalog module for a tenant whose current plan links `planIds`. */
  function Classify(m: Id, mod: Module, planIds: set<Id>, tms: map<(Id, Id), TenantModule>, t: Id): (e: ModuleStatus)
    ensures e.id == m && e.key == mod.key && e.name == mod.name && e.isCommon == mod.isCommon
    ensures e.allowedByPlan <==> mod.isCommon || m in planIds
    ensures e.enabled <==> mod.isCommon || RowFlag(tms, t, m)
    ensures e.status == ActiveStatus <==> e.enabled
    ensures e.status == Disabled <==> !e.enabled && e.allowedByPlan
    ensures e.status == Locked <==> !e.enabled && !e.allowedByPlan
  {
    var allowed := mod.isCommon || m in planIds;
    var enabled := if mod.isCommon then true else RowFlag(tms, t, m);
    ModuleStatus(m, mod.key, mod.name, mod.isCommon, allowed, enabled,
                 if enabled then ActiveStatus else if allowed then Disabled else Locked)
  }

  /** A common module is never LOCKED. */
  lemma CommonNeverLocked(m: Id, mod: Module, planIds: set<Id>, tms: map<(Id, Id), TenantModule>, t: Id)
    requires mod.isCommon
    ensures Classify(m, mod, planIds, tms, t).status == ActiveStatus
  {
  }

  /** A module switched on by hand outside the plan shows ACTIVE although the plan does not allow it. */
  lemma ManualSwitchOutsidePlan(m: Id, mod: Module, planIds: set<Id>, tms: map<(Id, Id), TenantModule>, t: Id)
    requires !mod.isCommon && m !in planIds && (t, m) in tms && tms[(t, m)].enabled
    ensures var e := Classify(m, mod, planIds, tms, t);
            e.status == ActiveStatus && !e.allowedByPlan
  {
  }

  function ByName(e: ModuleStatus): string { e.name }

  /**
   * Every catalog module classified, listed by name under the database's
   * collation `collate`; ties come in the enumeration order of the ids.
   */
  method ClassifyAll(modules: map<Id, Module>, planIds: set<Id>, tms: map<(Id, Id), TenantModule>, t: Id,
                     collate: (string, string) -> bool)
    returns (entries: seq<ModuleStatus>)
    requires Total(collate) && Transitive(collate)
    ensures |entries| == |modules|
    ensures SortedBy(entries, ByName, collate)
    ensures forall m :: m in modules ==> Classify(m, modules[m], planIds, tms, t) in entries
    ensures forall k :: 0 <= k < |entries| ==>
              entries[k].id in modules && entries[k] == Classify(entries[k].id, modules[entries[k].id], planIds, tms, t)
  {
    var ids := Enumerate(modules.Keys);
    var listed := ClassifyEach(ids, modules, planIds, tms, t);
    entries := SortBy(listed, ByName, collate);
    SortBySorted(listed, ByName, collate);
    SortByMembers(listed, ByName, collate);
    forall k | 0 <= k < |entries|
      ensures entries[k] in listed
    {
      assert entries[k] in entries;
    }
  }

  /** The loop over the enumerated ids: one classification per id, in order. */
  method ClassifyEach(ids: seq<Id>, modules: map<Id, Module>, planIds: set<Id>, tms: map<(Id, Id), TenantModule>, t: Id)
    returns (listed: seq<ModuleStatus>)
    requires forall m :: m in ids <==> m in modules
    ensures |listed| == |ids|
    ensures forall m :: m in modules ==> Classify(m, modules[m], planIds, tms, t) in listed
    ensures forall e :: e in listed ==> e.id in modules && e == Classify(e.id, modules[e.id], planIds, tms, t)
  {
    listed := [];
    var i := 0;
    while i < |ids|
      invariant 0 <= i <= |ids|
      invariant |listed| == i
      invariant forall j :: 0 <= j < i ==> listed[j] == Classify(ids[j], modules[ids[j]], planIds, tms, t)
    {
      listed := listed + [Classify(ids[i], modules[ids[i]], planIds, tms, t)];
      i := i + 1;
    }
    forall m | m in modules
      ensures Classify(m, modules[m], planIds, tms, t) in listed
    {
      var j :| 0 <= j < |ids| && ids[j] == m;
      assert listed[j] in listed;
    }
  }

  /**
   * Without an ACTIVE subscription that has not ended (`gte`), the answer
   * is 400. Otherwise every catalog module is classified against the
   * subscription's plan, and listed by name under the database's
   * collation `collate`.
   */
  method GetTenantModules(st: Store, tenantId: Id, now: int, collate: (string, string) -> bool)
    returns (r: Reply, planName: Option<string>, entries: seq<ModuleStatus>)
    requires st.Valid()
    requires Total(collate) && Transitive(collate)
    ensures var sub := FirstLive(st.subscriptions, IdIs(tenantId), now, false);
            sub.None? ==> r == Reply(400, Some("No active subscription found")) && planName.None? && entries == []
    ensures var sub := FirstLive(st.subscriptions, IdIs(tenantId), now, false);
            sub.Some? ==>
              var p := st.subscriptions[sub.value].planId;
              r == Reply(200, None) && p in st.plans && planName == Some(st.plans[p].name) &&
              |entries| == |st.modules| &&
              SortedBy(entries, ByName, collate) &&
              (forall m :: m in st.modules ==>
                 Classify(m, st.modules[m], PlanModuleIds(st.planModules, p), st.tenantModules, tenantId) in entries) &&
              (forall k :: 0 <= k < |entries| ==>
                 entries[k].id in st.modules &&
                 entries[k] == Classify(entries[k].id, st.modules[entries[k].id], PlanModuleIds(st.planModules, p),
                                        st.tenantModules, tenantId))
  {
    var sub := FirstLive(st.subscriptions, IdIs(tenantId), now, false);
    if sub.None? {
      return Reply(400, Some("No active subscription found")), None, [];
    }
    var p := st.subscriptions[sub.value].planId;
    assert p in st.plans by {
      assert st.SubscriptionsValid();
    }
    entries := ClassifyAll(st.modules, PlanModuleIds(st.planModules, p), st.tenantModules, tenantId, collate);
    r, planName := Reply(200, None), Some(st.plans[p].name);
  }
}
