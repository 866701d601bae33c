/**
 * The second `syncPlanToTenants` handler: the same fan-out as the plan
 * controller's, but with every tenant synced inside one transaction, so
 * that a failure for any tenant leaves no tenant changed.
 */
module PlanSyncController {
  import opened Base
  import opened Schema
  import opened Db
  import opened PlanService
  import opened PlanFanOut

  /**
   * The tenants in `faulty` are those whose sync the database fails; any
   * one of them rolls the whole transaction back. The success message
   * carries the count, which is returned as `updatedCount`: one per ACTIVE
   * subscription, so a tenant with two of them counts twice.
   */
  method SyncPlanToTenants(st: Store, planId: Id, mode: Option<Json>, faulty: set<Id>)
    returns (r: Reply, updatedCount: nat, echoedMode: Option<Json>)
    requires st.Valid()
    modifies st`tenantModules
    ensures st.Valid()
    ensures var ts := ActiveTenantsOf(st.subscriptions, planId);
            ts == [] ==>
              r == Reply(200, Some("No active tenants on this plan")) && updatedCount == 0 && echoedMode.None? &&
              st.tenantModules == old(st.tenantModules)
    ensures var ts := ActiveTenantsOf(st.subscriptions, planId);
            ts != [] && FirstFaulty(ts, faulty) < |ts| ==>
              r == Reply(500, Some("Failed to sync plan to tenants")) && echoedMode.None? &&
              st.tenantModules == old(st.tenantModules)
    ensures var ts := ActiveTenantsOf(st.subscriptions, planId);
            ts != [] && FirstFaulty(ts, faulty) == |ts| ==>
              r == Reply(200, Some(SyncedMessage(|ts|))) && updatedCount == |ts| && echoedMode == Some(ModeOf(mode)) &&
              st.tenantModules == SyncAll(old(st.tenantModules), ts, PlanModuleIds(st.planModules, planId))
  {
    var ts := ActiveTenantsOf(st.subscriptions, planId);
    if ts == [] {
      return Reply(200, Some("No active tenants on this plan")), 0, None;
    }
    forall t | t in ts
      ensures t in st.tenants
    {
      ActiveTenantsExist(st, planId, t);
    }
    var before := st.tenantModules;
    updatedCount := SyncEach(st, ts, planId, faulty);
    if updatedCount < |ts| {
      // the transaction rolls back every sync made so far
      st.SetTenantModules(before);
      return Reply(500, Some("Failed to sync plan to tenants")), updatedCount, None;
    }
    assert ts[..updatedCount] == ts;
    r, echoedMode := Reply(200, Some(SyncedMessage(updatedCount))), Some(ModeOf(mode));
  }
}
