/**
 * The super-admin module handlers: adding a module to the catalog,
 * switching a module on or off for one tenant, listing a tenant's
 * switches, and listing the catalog for a tenant type.
 */
module ModuleController {
  import opened Base
  import opened Schema
  import opened Db
  import opened Sorting

  // ------------------------------------------------------------------
  // createModule
  // ------------------------------------------------------------------

  /** The tenant-type rows written for a new module: none for a common module or an empty list. */
  function TypeRows(m: Id, isCommon: bool, tenantTypes: seq<string>): (r: set<(Id, string)>)
    ensures isCommon || tenantTypes == [] ==> r == {}
    ensures !isCommon ==> forall mt :: mt in r <==> mt.0 == m && mt.1 in tenantTypes
  {
    if !isCommon && |tenantTypes| > 0 then set ty | ty in tenantTypes :: (m, ty) else {}
  }

  predicate KeyTaken(modules: map<Id, Module>, key: string) {
    exists m :: m in modules && modules[m].key == key
  }

  /**
   * A missing key or name is refused. The module and, for a non-common
   * module, its tenant-type rows are created in one transaction; a key in
   * use violates the unique column and aborts it.
   */
  method CreateModule(st: Store, key: Option<string>, name: Option<string>, isCommon: Option<bool>, tenantTypes: seq<string>)
    returns (r: Reply, moduleId: Option<Id>)
    requires st.Valid()
    modifies st`modules, st`moduleTenantTypes
    ensures st.Valid()
    ensures !Filled(key) || !Filled(name) ==> r == Reply(400, Some("Module key and name are required"))
    ensures Filled(key) && Filled(name) && KeyTaken(old(st.modules), key.value) ==>
              r == Reply(500, Some("Failed to create module"))
    ensures r.status == 201 <==> Filled(key) && Filled(name) && !KeyTaken(old(st.modules), key.value)
    ensures r.status != 201 ==>
              moduleId.None? && st.modules == old(st.modules) && st.moduleTenantTypes == old(st.moduleTenantTypes)
    ensures r.status == 201 ==>
              var common := isCommon.Some? && isCommon.value;
              r.message == Some("Module created successfully") &&
              moduleId.Some? && moduleId.value !in old(st.modules) &&
              st.modules == old(st.modules)[moduleId.value := Module(key.value, name.value, common)] &&
              st.moduleTenantTypes == old(st.moduleTenantTypes) + TypeRows(moduleId.value, common, tenantTypes)
  {
    if !Filled(key) || !Filled(name) {
      return Reply(400, Some("Module key and name are required")), None;
    }
    if KeyTaken(st.modules, key.value) {
      return Reply(500, Some("Failed to create module")), None;
    }
    var common := isCommon.Some? && isCommon.value;
    var id := NewId(st.modules.Keys);
    st.modules := st.modules[id := Module(key.value, name.value, common)];
    st.moduleTenantTypes := st.moduleTenantTypes + TypeRows(id, common, tenantTypes);
    r, moduleId := Reply(201, Some("Module created successfully")), Some(id);
  }

  // ------------------------------------------------------------------
  // toggleTenantModule
  // ------------------------------------------------------------------

  /** The `upsert` of one switch: an existing row takes the new flag, a missing one is created with it. */
  function SetSwitch(tms: map<(Id, Id), TenantModule>, k: (Id, Id), enabled: bool): (r: map<(Id, Id), TenantModule>)
    ensures r.Keys == tms.Keys + {k}
    ensures r[k].enabled == enabled
    ensures k in tms ==> r[k].source == tms[k].source
    ensures forall k' :: k' in tms && k' != k ==> r[k'] == tms[k']
  {
    tms[k := if k in tms then tms[k].(enabled := enabled) else TenantModule(enabled, None)]
  }

  /** Setting a switch twice to the same value is setting it once. */
  lemma SetSwitchIdempotent(tms: map<(Id, Id), TenantModule>, k: (Id, Id), enabled: bool)
    ensures SetSwitch(SetSwitch(tms, k, enabled), k, enabled) == SetSwitch(tms, k, enabled)
  {
  }

  /** The last write wins. */
  lemma SetSwitchOverrides(tms: map<(Id, Id), TenantModule>, k: (Id, Id), a: bool, b: bool)
    ensures SetSwitch(SetSwitch(tms, k, a), k, b) == SetSwitch(tms, k, b)
  {
  }

  /**
   * `moduleId` must be truthy and `enabled` a boolean. The tenant is looked
   * up first, then the module; a `moduleId` that is not a string fails the
   * module query.
   */
  method ToggleTenantModule(st: Store, tenantId: Id, moduleId: Option<Json>, enabled: Option<Json>) returns (r: Reply)
    requires st.Valid()
    modifies st`tenantModules
    ensures st.Valid()
    ensures !Present(moduleId) || !(enabled.Some? && enabled.value.JBool?) ==>
              r == Reply(400, Some("moduleId and enabled flag are required"))
    ensures Present(moduleId) && enabled.Some? && enabled.value.JBool? && tenantId !in st.tenants ==>
              r == Reply(404, Some("Tenant not found"))
    ensures Present(moduleId) && enabled.Some? && enabled.value.JBool? && tenantId in st.tenants &&
            !moduleId.value.JStr? ==>
              r == Reply(500, Some("Failed to update tenant module"))
    ensures Present(moduleId) && enabled.Some? && enabled.value.JBool? && tenantId in st.tenants &&
            moduleId.value.JStr? && moduleId.value.s !in st.modules ==>
              r == Reply(404, Some("Module not found"))
    ensures r.status == 200 <==>
              Present(moduleId) && enabled.Some? && enabled.value.JBool? && tenantId in st.tenants &&
              moduleId.value.JStr? && moduleId.value.s in st.modules
    ensures r.status != 200 ==> st.tenantModules == old(st.tenantModules)
    ensures r.status == 200 ==>
              st.tenantModules == SetSwitch(old(st.tenantModules), (tenantId, moduleId.value.s), enabled.value.b) &&
              r.message == Some(if enabled.value.b then "Module enabled for tenant" else "Module disabled for tenant")
  {
    if !Present(moduleId) || !(enabled.Some? && enabled.value.JBool?) {
      return Reply(400, Some("moduleId and enabled flag are required"));
    }
    if tenantId !in st.tenants {
      return Reply(404, Some("Tenant not found"));
    }
    if !moduleId.value.JStr? {
      return Reply(500, Some("Failed to update tenant module"));
    }
    var m := moduleId.value.s;
    if m !in st.modules {
      return Reply(404, Some("Module not found"));
    }
    var on := enabled.value.b;
    st.SetTenantModules(SetSwitch(st.tenantModules, (tenantId, m), on));
    r := Reply(200, Some(if on then "Module enabled for tenant" else "Module disabled for tenant"));
  }

  // ------------------------------------------------------------------
  // getTenantModules
  // ------------------------------------------------------------------

  datatype SwitchView = SwitchView(id: Id, key: string, name: string, enabled: bool)

  function ViewOf(tms: map<(Id, Id), TenantModule>, modules: map<Id, Module>, k: (Id, Id)): SwitchView
    requires k in tms && k.1 in modules
  {
    SwitchView(k.1, modules[k.1].key, modules[k.1].name, tms[k].enabled)
  }

  /** Every TenantModule row of the tenant, enabled or not, with its module's key and name. */
  function TenantSwitches(tms: map<(Id, Id), TenantModule>, modules: map<Id, Module>, t: Id): (r: set<SwitchView>)
    ensures forall k :: k in tms && k.0 == t && k.1 in modules ==> ViewOf(tms, modules, k) in r
  {
    set k | k in tms && k.0 == t && k.1 in modules :: ViewOf(tms, modules, k)
  }

  /** Each listed entry is a row of that tenant and reports that row's flag. */
  lemma SwitchesAreTheTenantsRows(tms: map<(Id, Id), TenantModule>, modules: map<Id, Module>, t: Id, v: SwitchView)
    requires v in TenantSwitches(tms, modules, t)
    ensures (t, v.id) in tms && v.id in modules
    ensures v.enabled == tms[(t, v.id)].enabled && v.key == modules[v.id].key && v.name == modules[v.id].name
  {
    var k :| k in tms && k.0 == t && k.1 in modules && v == ViewOf(tms, modules, k);
    assert k == (t, v.id);
  }

  method GetTenantModules(st: Store, tenantId: Id) returns (views: set<SwitchView>)
    ensures views == TenantSwitches(st.tenantModules, st.modules, tenantId)
  {
    views := TenantSwitches(st.tenantModules, st.modules, tenantId);
  }

  // ------------------------------------------------------------------
  // listModules
  // ------------------------------------------------------------------

  /** A catalog entry with its tenant-type rows. */
  datatype ModuleListing = ModuleListing(id: Id, entry: Module, tenantTypes: set<string>)

  /** With a tenant type, the common modules and those mapped to it; without one, every module. */
  predicate Listed(modules: map<Id, Module>, mtts: set<(Id, string)>, tenantType: Option<string>, m: Id)
    requires m in modules
  {
    !Filled(tenantType) || modules[m].isCommon || (m, tenantType.value) in mtts
  }

  function ListingOf(modules: map<Id, Module>, mtts: set<(Id, string)>, m: Id): (l: ModuleListing)
    requires m in modules
    ensures l.id == m && l.entry == modules[m]
    ensures forall ty :: ty in l.tenantTypes <==> (m, ty) in mtts
  {
    ModuleListing(m, modules[m], set mt | mt in mtts && mt.0 == m :: mt.1)
  }

  function ByName(l: ModuleListing): string { l.entry.name }

  /**
   * Exactly the selected modules, ordered by name under `collate`, the
   * database's collation, which the store fixes and which is any total,
   * transitive order; ties come in an order the store chooses, here the
   * enumeration order of the ids.
   */
  method ListModules(st: Store, tenantType: Option<string>, collate: (string, string) -> bool)
    returns (rows: seq<ModuleListing>)
    requires Total(collate) && Transitive(collate)
    ensures SortedBy(rows, ByName, collate)
    ensures forall m :: m in st.modules && Listed(st.modules, st.moduleTenantTypes, tenantType, m) ==>
              ListingOf(st.modules, st.moduleTenantTypes, m) in rows
    ensures forall k :: 0 <= k < |rows| ==>
              rows[k].id in st.modules && Listed(st.modules, st.moduleTenantTypes, tenantType, rows[k].id) &&
              rows[k] == ListingOf(st.modules, st.moduleTenantTypes, rows[k].id)
    ensures forall a, b :: 0 <= a < b < |rows| ==> rows[a].id != rows[b].id
  {
    var ids := Enumerate(st.modules.Keys);
    var picked: seq<ModuleListing> := [];
    var i := 0;
    while i < |ids|
      invariant 0 <= i <= |ids|
      invariant forall j :: 0 <= j < i && Listed(st.modules, st.moduleTenantTypes, tenantType, ids[j]) ==>
                  ListingOf(st.modules, st.moduleTenantTypes, ids[j]) in picked
      invariant forall x :: x in picked ==>
                  x.id in st.modules && Listed(st.modules, st.moduleTenantTypes, tenantType, x.id) &&
                  x == ListingOf(st.modules, st.moduleTenantTypes, x.id)
      invariant forall x :: x in picked ==> x.id in ids[..i]
      invariant forall a, b :: 0 <= a < b < |picked| ==> picked[a].id != picked[b].id
    {
      assert ids[i] !in ids[..i];
      if Listed(st.modules, st.moduleTenantTypes, tenantType, ids[i]) {
        picked := picked + [ListingOf(st.modules, st.moduleTenantTypes, ids[i])];
      }
      i := i + 1;
    }
    rows := SortBy(picked, ByName, collate);
    SortBySorted(picked, ByName, collate);
    SortByMembers(picked, ByName, collate);
    forall m | m in st.modules && Listed(st.modules, st.moduleTenantTypes, tenantType, m)
      ensures ListingOf(st.modules, st.moduleTenantTypes, m) in rows
    {
      var j :| 0 <= j < |ids| && ids[j] == m;
    }
    forall k | 0 <= k < |rows|
      ensures rows[k].id in st.modules && Listed(st.modules, st.moduleTenantTypes, tenantType, rows[k].id) &&
              rows[k] == ListingOf(st.modules, st.moduleTenantTypes, rows[k].id)
    {
      assert rows[k] in picked;
    }
    SortByPermutes(picked, ByName, collate);
    PermutationKeepsDistinct(picked, rows);
  }
}
