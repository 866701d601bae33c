/**
 * `syncTenantModulesFromPlan`: makes a tenant's TenantModule switches
 * follow a plan. It upserts an enabled row for every module of the plan,
 * then disables every other row of the tenant. It takes no mode: the
 * fourth argument some callers pass is ignored.
 */
module PlanService {
  import opened Base
  import opened Schema
  import opened Db

  /** The module ids linked to a plan. */
  function PlanModuleIds(pms: set<(Id, Id)>, planId: Id): (r: set<Id>)
    ensures forall m :: m in r <==> (planId, m) in pms
  {
    set pm | pm in pms && pm.0 == planId :: pm.1
  }

  /** The keys a tenant's rows for `ms` would have. */
  function RowKeys(t: Id, ms: set<Id>): (r: set<(Id, Id)>)
    ensures forall k :: k in r <==> k.0 == t && k.1 in ms
  {
    set m | m in ms :: (t, m)
  }

  /** The upserts of the loop: each (tenant, module) row of `ms` is enabled, created if missing. */
  function EnablePlan(tms: map<(Id, Id), TenantModule>, t: Id, ms: set<Id>): (r: map<(Id, Id), TenantModule>)
    ensures r.Keys == tms.Keys + RowKeys(t, ms)
  {
    map k | k in tms.Keys + RowKeys(t, ms) ::
      if k.0 == t && k.1 in ms then TenantModule(true, if k in tms then tms[k].source else None)
      else tms[k]
  }

  /** The `updateMany`: every row of the tenant outside `ms` is disabled. */
  function DisableOthers(tms: map<(Id, Id), TenantModule>, t: Id, ms: set<Id>): (r: map<(Id, Id), TenantModule>)
    ensures r.Keys == tms.Keys
  {
    map k | k in tms :: if k.0 == t && k.1 !in ms then tms[k].(enabled := false) else tms[k]
  }

  /** The table after a successful sync of tenant `t` to the modules `ms`. */
  function Synced(tms: map<(Id, Id), TenantModule>, t: Id, ms: set<Id>): map<(Id, Id), TenantModule> {
    DisableOthers(EnablePlan(tms, t, ms), t, ms)
  }

  // ------------------------------------------------------------------
  // What a sync guarantees
  // ------------------------------------------------------------------

  /** Afterwards the tenant's enabled modules are exactly the plan's modules. */
  lemma SyncEnablesExactlyThePlan(tms: map<(Id, Id), TenantModule>, t: Id, ms: set<Id>, m: Id)
    ensures (t, m) in Synced(tms, t, ms) && Synced(tms, t, ms)[(t, m)].enabled <==> m in ms
  {
    assert m in ms ==> (t, m) in RowKeys(t, ms);
  }

  /** The tenant's row for module `k.1` after a sync: present iff it was or the plan lists it, enabled iff the plan lists it. */
  lemma SyncedRow(tms: map<(Id, Id), TenantModule>, t: Id, ms: set<Id>, k: (Id, Id))
    requires k.0 == t
    ensures k in Synced(tms, t, ms) <==> k in tms || k.1 in ms
    ensures k in Synced(tms, t, ms) ==>
              Synced(tms, t, ms)[k] == TenantModule(k.1 in ms, if k in tms then tms[k].source else None)
  {
  }

  /** Every plan module has a row; every other row of the tenant is disabled. */
  lemma SyncRowsOfTheTenant(tms: map<(Id, Id), TenantModule>, t: Id, ms: set<Id>)
    ensures forall m :: m in ms ==> (t, m) in Synced(tms, t, ms) && Synced(tms, t, ms)[(t, m)].enabled
    ensures forall k :: k in Synced(tms, t, ms) && k.0 == t && k.1 !in ms ==> !Synced(tms, t, ms)[k].enabled
  {
    forall m | m in ms
      ensures (t, m) in Synced(tms, t, ms) && Synced(tms, t, ms)[(t, m)].enabled
    {
      SyncEnablesExactlyThePlan(tms, t, ms, m);
    }
  }

  /** Rows of other tenants are untouched and no row of another tenant appears. */
  lemma SyncLeavesOtherTenants(tms: map<(Id, Id), TenantModule>, t: Id, ms: set<Id>, k: (Id, Id))
    requires k.0 != t
    ensures k in Synced(tms, t, ms) <==> k in tms
    ensures k in tms ==> Synced(tms, t, ms)[k] == tms[k]
  {
  }

  /** Rows are added only for plan modules; nothing is deleted. */
  lemma SyncKeys(tms: map<(Id, Id), TenantModule>, t: Id, ms: set<Id>)
    ensures Synced(tms, t, ms).Keys == tms.Keys + RowKeys(t, ms)
  {
  }

  /** A disabled row keeps its `source`; the flag is the only column written. */
  lemma SyncKeepsSource(tms: map<(Id, Id), TenantModule>, t: Id, ms: set<Id>, k: (Id, Id))
    requires k in tms
    ensures k in Synced(tms, t, ms) && Synced(tms, t, ms)[k].source == tms[k].source
  {
  }

  /** Syncing twice is syncing once. */
  lemma SyncIdempotent(tms: map<(Id, Id), TenantModule>, t: Id, ms: set<Id>)
    ensures Synced(Synced(tms, t, ms), t, ms) == Synced(tms, t, ms)
  {
    var once := Synced(tms, t, ms);
    var twice := Synced(once, t, ms);
    assert twice.Keys == once.Keys;
    forall k | k in once
      ensures twice[k] == once[k]
    {
    }
  }

  /** Syncs of different tenants commute, so the order of a fan-out does not matter. */
  lemma SyncsCommute(tms: map<(Id, Id), TenantModule>, t1: Id, t2: Id, ms1: set<Id>, ms2: set<Id>)
    requires t1 != t2
    ensures Synced(Synced(tms, t1, ms1), t2, ms2) == Synced(Synced(tms, t2, ms2), t1, ms1)
  {
    var a := Synced(Synced(tms, t1, ms1), t2, ms2);
    var b := Synced(Synced(tms, t2, ms2), t1, ms1);
    forall k
      ensures k in a <==> k in b
      ensures k in a ==> a[k] == b[k]
    {
      SyncsCommuteAt(tms, t1, t2, ms1, ms2, k);
    }
    assert a.Keys == b.Keys;
  }

  /** The two orders agree on one row. */
  lemma SyncsCommuteAt(tms: map<(Id, Id), TenantModule>, t1: Id, t2: Id, ms1: set<Id>, ms2: set<Id>, k: (Id, Id))
    requires t1 != t2
    ensures k in Synced(Synced(tms, t1, ms1), t2, ms2) <==> k in Synced(Synced(tms, t2, ms2), t1, ms1)
    ensures k in Synced(Synced(tms, t1, ms1), t2, ms2) ==>
              Synced(Synced(tms, t1, ms1), t2, ms2)[k] == Synced(Synced(tms, t2, ms2), t1, ms1)[k]
  {
    if k.0 == t1 {
      SyncedRow(tms, t1, ms1, k);
      SyncLeavesOtherTenants(Synced(tms, t1, ms1), t2, ms2, k);
      SyncLeavesOtherTenants(tms, t2, ms2, k);
      SyncedRow(Synced(tms, t2, ms2), t1, ms1, k);
    } else if k.0 == t2 {
      SyncLeavesOtherTenants(tms, t1, ms1, k);
      SyncedRow(Synced(tms, t1, ms1), t2, ms2, k);
      SyncedRow(tms, t2, ms2, k);
      SyncLeavesOtherTenants(Synced(tms, t2, ms2), t1, ms1, k);
    } else {
      SyncLeavesOtherTenants(tms, t1, ms1, k);
      SyncLeavesOtherTenants(Synced(tms, t1, ms1), t2, ms2, k);
      SyncLeavesOtherTenants(tms, t2, ms2, k);
      SyncLeavesOtherTenants(Synced(tms, t2, ms2), t1, ms1, k);
    }
  }

  /** The rows the sync writes keep the table's foreign keys when the tenant and the modules exist. */
  lemma SyncKeepsForeignKeys(tms: map<(Id, Id), TenantModule>, t: Id, ms: set<Id>, tenants: set<Id>, modules: set<Id>)
    requires PairKeysWithin(tms, tenants, modules)
    requires (t in tenants || ms == {}) && ms <= modules
    ensures PairKeysWithin(Synced(tms, t, ms), tenants, modules)
  {
  }

  /** One `upsert` of the loop: the row is enabled, or created enabled. */
  function Upsert(tms: map<(Id, Id), TenantModule>, key: (Id, Id)): (r: map<(Id, Id), TenantModule>)
    ensures key in r && r[key].enabled
  {
    tms[key := if key in tms then tms[key].(enabled := true) else TenantModule(true, None)]
  }

  lemma EnablePlanStep(tms: map<(Id, Id), TenantModule>, t: Id, done: set<Id>, m: Id)
    ensures Upsert(EnablePlan(tms, t, done), (t, m)) == EnablePlan(tms, t, done + {m})
  {
    var a := Upsert(EnablePlan(tms, t, done), (t, m));
    var b := EnablePlan(tms, t, done + {m});
    assert a.Keys == b.Keys;
    forall k | k in a
      ensures a[k] == b[k]
    {
    }
  }

  lemma EnablePlanNothing(tms: map<(Id, Id), TenantModule>, t: Id)
    ensures EnablePlan(tms, t, {}) == tms
  {
    assert EnablePlan(tms, t, {}).Keys == tms.Keys;
  }

  // ------------------------------------------------------------------
  // The operation
  // ------------------------------------------------------------------

  /**
   * Runs inside a caller's transaction. Creating a row for a tenant that
   * does not exist violates the foreign key; the sync then fails and the
   * caller's transaction rolls back, so the table is reported unchanged.
   */
  method SyncTenantModulesFromPlan(st: Store, tenantId: Id, planId: Id) returns (ok: bool)
    requires st.Valid()
    modifies st`tenantModules
    ensures st.Valid()
    ensures ok <==> tenantId in st.tenants || PlanModuleIds(st.planModules, planId) == {}
    ensures ok ==> st.tenantModules == Synced(old(st.tenantModules), tenantId, PlanModuleIds(st.planModules, planId))
    ensures !ok ==> st.tenantModules == old(st.tenantModules)
  {
    var ms := PlanModuleIds(st.planModules, planId);
    if tenantId !in st.tenants && ms != {} {
      return false;
    }
    var pms := Enumerate(ms);
    var before := st.tenantModules;
    var tms := UpsertAll(before, tenantId, pms, ms);
    tms := DisableOthers(tms, tenantId, ms);
    SyncKeepsForeignKeys(before, tenantId, ms, st.tenants.Keys, st.modules.Keys);
    st.SetTenantModules(tms);
    ok := true;
  }

  /** The `for` loop of upserts over the plan's modules, taken in the order `pms` lists them. */
  method UpsertAll(before: map<(Id, Id), TenantModule>, tenantId: Id, pms: seq<Id>, ghost ms: set<Id>)
    returns (tms: map<(Id, Id), TenantModule>)
    requires forall m :: m in ms <==> m in pms
    ensures tms == EnablePlan(before, tenantId, ms)
  {
    tms := before;
    ghost var done: set<Id> := {};
    EnablePlanNothing(tms, tenantId);
    var i := 0;
    while i < |pms|
      invariant 0 <= i <= |pms|
      invariant done == set j | 0 <= j < i :: pms[j]
      invariant tms == EnablePlan(before, tenantId, done)
    {
      EnablePlanStep(before, tenantId, done, pms[i]);
      tms := Upsert(tms, (tenantId, pms[i]));
      done := done + {pms[i]};
      i := i + 1;
    }
    assert done == ms;
  }
}
