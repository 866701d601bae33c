/**
 * `requirePermission(key)` of the domain routes: a single
 * `rolePermission.findFirst` on the context's `roleId` and the
 * permission key. There is no super-admin bypass.
 */
module RbacMiddleware {
  import opened Base
  import opened Schema
  import RequirePermission

  /** Whether a role-permission row matches the filter on `roleId` and links a permission keyed `key`. */
  predicate Granted(rps: set<(Id, Id)>, permissions: map<Id, Permission>, f: IdFilter, key: string) {
    exists rp :: rp in rps && Matches(f, rp.0) && rp.1 in permissions && permissions[rp.1].key == key
  }

  /**
   * The guard for `key`. An undefined `roleId` drops that condition from
   * the query; a `roleId` that is neither undefined nor a string fails the
   * query, which is not caught.
   */
  function Check(rps: set<(Id, Id)>, permissions: map<Id, Permission>, user: Claims, key: string): (r: Verdict)
    ensures r == Raise <==> FilterOf(Field(user, "roleId")).Rejected?
    ensures r == Next <==>
              !FilterOf(Field(user, "roleId")).Rejected? && Granted(rps, permissions, FilterOf(Field(user, "roleId")), key)
    ensures r.Refuse? ==> r == Refuse(403, "Permission denied")
  {
    var f := FilterOf(Field(user, "roleId"));
    if f.Rejected? then Raise
    else if Granted(rps, permissions, f, key) then Next
    else Refuse(403, "Permission denied")
  }

  /** Only `roleId` and the key decide: two contexts with the same `roleId` get the same answer. */
  lemma OnlyRoleDecides(rps: set<(Id, Id)>, permissions: map<Id, Permission>, u1: Claims, u2: Claims, key: string)
    requires Field(u1, "roleId") == Field(u2, "roleId")
    ensures Check(rps, permissions, u1, key) == Check(rps, permissions, u2, key)
  {
  }

  /** A super-admin `type` claim earns nothing: without a grant the request is refused. */
  lemma NoSuperAdminBypass(rps: set<(Id, Id)>, permissions: map<Id, Permission>, user: Claims, key: string)
    requires RequirePermission.IsSuperAdmin(user)
    requires Field(user, "roleId").Some? && Field(user, "roleId").value.JStr?
    requires forall rp :: rp in rps && rp.0 == Field(user, "roleId").value.s && rp.1 in permissions ==>
               permissions[rp.1].key != key
    ensures Check(rps, permissions, user, key) == Refuse(403, "Permission denied")
  {
  }

  /** A context without `roleId` passes when any role at all holds the key. */
  lemma MissingRoleMatchesAnyRole(rps: set<(Id, Id)>, permissions: map<Id, Permission>, user: Claims, key: string,
                                  rp: (Id, Id))
    requires "roleId" !in user
    requires rp in rps && rp.1 in permissions && permissions[rp.1].key == key
    ensures Check(rps, permissions, user, key) == Next
  {
  }

  /**
   * For a non-super-admin context naming an existing role, this guard and
   * the user-administration one allow exactly the same requests.
   */
  lemma AgreesWithRequirePermission(roles: map<Id, Role>, rps: set<(Id, Id)>, permissions: map<Id, Permission>,
                                    user: Claims, key: string)
    requires !RequirePermission.IsSuperAdmin(user) && RequirePermission.RoleOf(roles, user).Some?
    ensures Check(rps, permissions, user, key) == RequirePermission.Check(roles, rps, permissions, user, key)
  {
    var role := RequirePermission.RoleOf(roles, user).value;
    assert Granted(rps, permissions, IdIs(role), key) <==> RequirePermission.RoleHolds(rps, permissions, role, key);
  }
}
