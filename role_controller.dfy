/**
 * The tenant-admin role handlers: creating a role in the caller's tenant
 * and replacing a role's permission links.
 */
module RoleController {
  import opened Base
  import opened Schema
  import opened Db

  /**
   * `tenantId` from the request context: `undefined` and `null` store no
   * tenant, a string must name an existing tenant (the foreign key), and
   * any other value fails validation.
   */
  method CreateRole(st: Store, ctx: Claims, name: Option<string>) returns (r: Reply, roleId: Option<Id>)
    requires st.Valid()
    modifies st`roles
    ensures st.Valid()
    ensures !Filled(name) ==> r == Reply(400, Some("Role name required"))
    ensures Filled(name) && !ValidTenantRef(st.tenants, Field(ctx, "tenantId")) ==>
              r == Reply(500, Some("Failed to create role"))
    ensures roleId.Some? <==> Filled(name) && ValidTenantRef(st.tenants, Field(ctx, "tenantId"))
    ensures roleId.None? ==> st.roles == old(st.roles)
    ensures roleId.Some? ==>
              r.status == 201 && roleId.value !in old(st.roles) &&
              st.roles == old(st.roles)[roleId.value := Role(name.value, TenantRef(Field(ctx, "tenantId")))]
  {
    if !Filled(name) {
      return Reply(400, Some("Role name required")), None;
    }
    var t := Field(ctx, "tenantId");
    if !ValidTenantRef(st.tenants, t) {
      return Reply(500, Some("Failed to create role")), None;
    }
    var id := NewId(st.roles.Keys);
    st.roles := st.roles[id := Role(name.value, TenantRef(t))];
    r, roleId := Reply(201, None), Some(id);
  }

  predicate ValidTenantRef(tenants: map<Id, Tenant>, v: Option<Json>) {
    v.None? || v == Some(JNull) || (v.value.JStr? && v.value.s in tenants)
  }

  function TenantRef(v: Option<Json>): Option<Id> {
    if v.Some? && v.value.JStr? then Some(v.value.s) else None
  }

  // ------------------------------------------------------------------
  // assignPermissionsToRole
  // ------------------------------------------------------------------

  /** The links after `deleteMany({ where: { roleId } })`. */
  function Unlinked(rps: set<(Id, Id)>, role: Id): (r: set<(Id, Id)>)
    ensures forall rp :: rp in r <==> rp in rps && rp.0 != role
  {
    set rp | rp in rps && rp.0 != role
  }

  /** The rows `permissions.map(pid => ({ roleId, permissionId: pid }))`. */
  function LinksOf(role: Id, pids: seq<Id>): (r: set<(Id, Id)>)
    ensures forall rp :: rp in r <==> rp.0 == role && rp.1 in pids
  {
    set p | p in pids :: (role, p)
  }

  /** The role's links replaced by exactly `pids`. */
  function Replaced(rps: set<(Id, Id)>, role: Id, pids: seq<Id>): (r: set<(Id, Id)>)
    ensures forall p :: (role, p) in r <==> p in pids
    ensures forall rp: (Id, Id) :: rp.0 != role ==> (rp in r <==> rp in rps)
  {
    Unlinked(rps, role) + LinksOf(role, pids)
  }

  /** Replacing twice with the same list is replacing once. */
  lemma ReplaceIdempotent(rps: set<(Id, Id)>, role: Id, pids: seq<Id>)
    ensures Replaced(Replaced(rps, role, pids), role, pids) == Replaced(rps, role, pids)
  {
  }

  /** An empty list clears the role's links. */
  lemma EmptyListClears(rps: set<(Id, Id)>, role: Id, p: Id)
    ensures (role, p) !in Replaced(rps, role, [])
  {
  }

  /** The permission ids of a JSON list, when every element is a string. */
  function Strings(items: seq<Json>): (r: Option<seq<Id>>)
    ensures r.Some? <==> forall i :: 0 <= i < |items| ==> items[i].JStr?
    ensures r.Some? ==> |r.value| == |items| && forall i :: 0 <= i < |items| ==> items[i] == JStr(r.value[i])
  {
    if items == [] then Some([])
    else
      match Strings(items[1..])
      case None => None
      case Some(rest) =>
        if items[0].JStr? then Some([items[0].s] + rest) else None
  }

  predicate Distinct(pids: seq<Id>) {
    forall i, j :: 0 <= i < j < |pids| ==> pids[i] != pids[j]
  }

  /**
   * Whether `createMany` accepts the rows: every id names a permission, the
   * role exists when there is a row at all, and no pair repeats.
   */
  predicate Insertable(st: Store, role: Id, pids: seq<Id>)
    reads st
  {
    Distinct(pids) && (pids == [] || (role in st.roles && forall i :: 0 <= i < |pids| ==> pids[i] in st.permissions))
  }

  /**
   * The role's links are deleted first; the new list is then inserted in a
   * separate statement. A body without a list, a list with a non-string
   * element, or rows the store refuses fail the request after the
   * deletion, leaving the role with no permissions.
   */
  method AssignPermissionsToRole(st: Store, roleId: Id, permissions: Option<Json>) returns (r: Reply)
    requires st.Valid()
    modifies st`rolePermissions
    ensures st.Valid()
    ensures r.status == 200 <==>
              permissions.Some? && permissions.value.JArr? && Strings(permissions.value.items).Some? &&
              Insertable(st, roleId, Strings(permissions.value.items).value)
    ensures r.status == 200 ==>
              r.message == Some("Permissions assigned") &&
              st.rolePermissions == Replaced(old(st.rolePermissions), roleId, Strings(permissions.value.items).value)
    ensures r.status != 200 ==>
              r == Reply(500, Some("Failed to assign permissions")) &&
              st.rolePermissions == Unlinked(old(st.rolePermissions), roleId)
  {
    st.rolePermissions := Unlinked(st.rolePermissions, roleId);
    if !(permissions.Some? && permissions.value.JArr?) {
      // `permissions.map` on a missing or non-array value throws
      return Reply(500, Some("Failed to assign permissions"));
    }
    var pids := Strings(permissions.value.items);
    if pids.None? || !Insertable(st, roleId, pids.value) {
      return Reply(500, Some("Failed to assign permissions"));
    }
    st.rolePermissions := st.rolePermissions + LinksOf(roleId, pids.value);
    r := Reply(200, Some("Permissions assigned"));
  }
}
