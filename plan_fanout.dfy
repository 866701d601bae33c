/**
 * What the two `syncPlanToTenants` handlers share: the tenants selected by
 * the plan's ACTIVE subscriptions, and the effect of syncing a list of
 * tenants one after the other.
 */
module PlanFanOut {
  import opened Base
  import opened Schema
  import opened Db
  import opened PlanService

  /** `subscription.findMany({ where: { planId, status: "ACTIVE" } })`, one tenant id per row, in row order. */
  function ActiveTenantsOf(subs: seq<Subscription>, planId: Id): (r: seq<Id>)
    ensures |r| <= |subs|
  {
    if subs == [] then []
    else
      (if subs[0].planId == planId && subs[0].status == Active then [subs[0].tenantId] else []) +
      ActiveTenantsOf(subs[1..], planId)
  }

  /** A tenant is selected iff one of its rows is ACTIVE on the plan; the end date plays no part. */
  lemma {:induction false} ActiveTenantsMembers(subs: seq<Subscription>, planId: Id, t: Id)
    ensures t in ActiveTenantsOf(subs, planId) <==>
              exists i :: 0 <= i < |subs| && subs[i].tenantId == t && subs[i].planId == planId && subs[i].status == Active
  {
    if subs != [] {
      ActiveTenantsMembers(subs[1..], planId, t);
      if exists i :: 0 <= i < |subs| && subs[i].tenantId == t && subs[i].planId == planId && subs[i].status == Active {
        var i :| 0 <= i < |subs| && subs[i].tenantId == t && subs[i].planId == planId && subs[i].status == Active;
        if i > 0 {
          assert subs[1..][i - 1] == subs[i];
        }
      }
      if t in ActiveTenantsOf(subs[1..], planId) {
        var i :| 0 <= i < |subs[1..]| && subs[1..][i].tenantId == t && subs[1..][i].planId == planId &&
                 subs[1..][i].status == Active;
        assert subs[i + 1] == subs[1..][i];
      }
    }
  }

  /** The selected tenants exist, by the foreign key of Subscription. */
  lemma ActiveTenantsExist(st: Store, planId: Id, t: Id)
    requires st.Valid()
    requires t in ActiveTenantsOf(st.subscriptions, planId)
    ensures t in st.tenants
  {
    ActiveTenantsMembers(st.subscriptions, planId, t);
  }

  /** The table after syncing the tenants of `ts` to the modules `ms`, in list order. */
  function SyncAll(tms: map<(Id, Id), TenantModule>, ts: seq<Id>, ms: set<Id>): map<(Id, Id), TenantModule> {
    if ts == [] then tms else Synced(SyncAll(tms, ts[..|ts| - 1], ms), ts[|ts| - 1], ms)
  }

  /**
   * After a fan-out every listed tenant has exactly the plan's modules
   * enabled, each row keeping the `source` it had, and the rows of every
   * other tenant are as they were.
   */
  lemma {:induction false} SyncAllEffect(tms: map<(Id, Id), TenantModule>, ts: seq<Id>, ms: set<Id>, k: (Id, Id))
    ensures k.0 in ts ==> (k in SyncAll(tms, ts, ms) <==> k in tms || k.1 in ms)
    ensures k.0 in ts && k in SyncAll(tms, ts, ms) ==>
              SyncAll(tms, ts, ms)[k] == TenantModule(k.1 in ms, if k in tms then tms[k].source else None)
    ensures k.0 in ts ==> (k in SyncAll(tms, ts, ms) && SyncAll(tms, ts, ms)[k].enabled <==> k.1 in ms)
    ensures k.0 !in ts ==> (k in SyncAll(tms, ts, ms) <==> k in tms)
    ensures k.0 !in ts && k in tms ==> SyncAll(tms, ts, ms)[k] == tms[k]
  {
    if ts != [] {
      var init := ts[..|ts| - 1];
      var last := ts[|ts| - 1];
      assert ts == init + [last];
      SyncAllEffect(tms, init, ms, k);
      if k.0 == last {
        SyncedRow(SyncAll(tms, init, ms), last, ms, k);
      } else {
        SyncLeavesOtherTenants(SyncAll(tms, init, ms), last, ms, k);
      }
    }
  }

  /**
   * A fan-out depends only on the set of tenants: their order and any
   * repetition (a tenant with two ACTIVE rows on the plan) do not matter.
   */
  lemma SyncAllOrderFree(tms: map<(Id, Id), TenantModule>, ts1: seq<Id>, ts2: seq<Id>, ms: set<Id>)
    requires forall t :: t in ts1 <==> t in ts2
    ensures SyncAll(tms, ts1, ms) == SyncAll(tms, ts2, ms)
  {
    var a := SyncAll(tms, ts1, ms);
    var b := SyncAll(tms, ts2, ms);
    forall k
      ensures (k in a <==> k in b) && (k in a ==> a[k] == b[k])
    {
      SyncAllEffect(tms, ts1, ms, k);
      SyncAllEffect(tms, ts2, ms, k);
    }
    assert a.Keys == b.Keys;
  }

  /** `SyncAll` keeps the foreign keys of TenantModule for existing tenants and modules. */
  lemma {:induction false} SyncAllKeepsForeignKeys(tms: map<(Id, Id), TenantModule>, ts: seq<Id>, ms: set<Id>,
                                                   tenants: set<Id>, modules: set<Id>)
    requires PairKeysWithin(tms, tenants, modules)
    requires (forall i :: 0 <= i < |ts| ==> ts[i] in tenants) && ms <= modules
    ensures PairKeysWithin(SyncAll(tms, ts, ms), tenants, modules)
  {
    if ts != [] {
      SyncAllKeepsForeignKeys(tms, ts[..|ts| - 1], ms, tenants, modules);
      SyncKeepsForeignKeys(SyncAll(tms, ts[..|ts| - 1], ms), ts[|ts| - 1], ms, tenants, modules);
    }
  }

  /** The position of the first tenant whose transaction the database aborts, or `|ts|`. */
  function FirstFaulty(ts: seq<Id>, faulty: set<Id>): (k: nat)
    ensures k <= |ts|
    ensures forall j :: 0 <= j < k ==> ts[j] !in faulty
    ensures k < |ts| ==> ts[k] in faulty
  {
    if ts == [] then 0 else if ts[0] in faulty then 0 else 1 + FirstFaulty(ts[1..], faulty)
  }

  /**
   * The loop both handlers run: each listed tenant is synced in turn, and
   * the loop stops at the first tenant whose sync the store fails.
   */
  method SyncEach(st: Store, ts: seq<Id>, planId: Id, faulty: set<Id>) returns (count: nat)
    requires st.Valid()
    requires forall t :: t in ts ==> t in st.tenants
    modifies st`tenantModules
    ensures st.Valid()
    ensures count == FirstFaulty(ts, faulty)
    ensures st.tenantModules == SyncAll(old(st.tenantModules), ts[..count], PlanModuleIds(st.planModules, planId))
  {
    ghost var ms := PlanModuleIds(st.planModules, planId);
    ghost var before := st.tenantModules;
    count := 0;
    while count < |ts|
      invariant count <= |ts|
      invariant forall j :: 0 <= j < count ==> ts[j] !in faulty
      invariant st.Valid()
      invariant st.tenantModules == SyncAll(before, ts[..count], ms)
    {
      if ts[count] in faulty {
        return;
      }
      ghost var prev := st.tenantModules;
      var ok := SyncTenantModulesFromPlan(st, ts[count], planId);
      assert st.tenantModules == Synced(prev, ts[count], ms);
      assert ts[..count + 1][..count] == ts[..count];
      assert SyncAll(before, ts[..count + 1], ms) == Synced(SyncAll(before, ts[..count], ms), ts[count], ms);
      count := count + 1;
    }
  }

  /** The success message `Plan synced to ${updatedCount} tenants`. */
  function SyncedMessage(count: nat): string {
    "Plan synced to " + Decimal(count) + " tenants"
  }

  /** Two counts give the same message only when they are equal. */
  lemma SyncedMessageNamesTheCount(c1: nat, c2: nat)
    requires SyncedMessage(c1) == SyncedMessage(c2)
    ensures c1 == c2
  {
    var p := "Plan synced to ";
    var q := " tenants";
    var m := SyncedMessage(c1);
    assert Decimal(c1) == m[|p|..|m| - |q|];
    assert Decimal(c2) == m[|p|..|m| - |q|];
    DecimalRoundTrip(c1);
    DecimalRoundTrip(c2);
  }

  /**
   * `const { mode = "SAFE" } = req.body`: both handlers echo the mode and
   * pass `mode === "STRICT"` to a sync that takes no such argument.
   */
  function ModeOf(mode: Option<Json>): (m: Json)
    ensures mode.Some? ==> m == mode.value
    ensures mode.None? ==> m == JStr("SAFE")
  {
    if mode.Some? then mode.value else JStr("SAFE")
  }
}
