/**
 * `requirePermission(key)` of the user-administration routes: a context
 * whose `type` claim is "SUPER_ADMIN" passes without a lookup; otherwise
 * the caller's role is loaded with its permissions and must hold one whose
 * key is exactly `key`.
 */
module RequirePermission {
  import opened Base
  import opened Schema
  import AuthMiddleware

  /** Whether some permission linked to `role` has the key `key`. */
  predicate RoleHolds(rps: set<(Id, Id)>, permissions: map<Id, Permission>, role: Id, key: string) {
    exists rp :: rp in rps && rp.0 == role && rp.1 in permissions && permissions[rp.1].key == key
  }

  /** The role a `findUnique({ where: { id: roleId } })` finds, if the id is a string naming one. */
  function RoleOf(roles: map<Id, Role>, user: Claims): (r: Option<Id>)
    ensures r.Some? <==> Field(user, "roleId").Some? && Field(user, "roleId").value.JStr? &&
                         Field(user, "roleId").value.s in roles
    ensures r.Some? ==> Field(user, "roleId") == Some(JStr(r.value))
  {
    match Field(user, "roleId")
    case Some(JStr(id)) => if id in roles then Some(id) else None
    case _ => None
  }

  predicate IsSuperAdmin(user: Claims) {
    Field(user, "type") == Some(JStr("SUPER_ADMIN"))
  }

  /**
   * The guard for `key`. A missing `roleId` or a non-string one fails the
   * unique lookup, and a role that does not exist makes `role.permissions`
   * throw; neither is caught.
   */
  function Check(roles: map<Id, Role>, rps: set<(Id, Id)>, permissions: map<Id, Permission>,
                 user: Claims, key: string): (r: Verdict)
    ensures IsSuperAdmin(user) ==> r == Next
    ensures !IsSuperAdmin(user) ==> (r == Raise <==> RoleOf(roles, user).None?)
    ensures r == Next <==>
              IsSuperAdmin(user) ||
              (RoleOf(roles, user).Some? && RoleHolds(rps, permissions, RoleOf(roles, user).value, key))
    ensures r.Refuse? ==> r == Refuse(403, "Permission denied")
  {
    if IsSuperAdmin(user) then Next
    else
      match RoleOf(roles, user)
      case None => Raise
      case Some(role) => if RoleHolds(rps, permissions, role, key) then Next else Refuse(403, "Permission denied")
  }

  /** The bypass reads nothing: for a super-admin context any two stores give the same answer. */
  lemma BypassIgnoresStore(roles1: map<Id, Role>, rps1: set<(Id, Id)>, permissions1: map<Id, Permission>,
                           roles2: map<Id, Role>, rps2: set<(Id, Id)>, permissions2: map<Id, Permission>,
                           user: Claims, key: string)
    requires IsSuperAdmin(user)
    ensures Check(roles1, rps1, permissions1, user, key) == Check(roles2, rps2, permissions2, user, key)
  {
  }

  /** Granting more permissions to roles never turns an allow into a refusal. */
  lemma MoreGrantsStillAllow(roles: map<Id, Role>, rps1: set<(Id, Id)>, rps2: set<(Id, Id)>,
                             permissions: map<Id, Permission>, user: Claims, key: string)
    requires rps1 <= rps2
    requires Check(roles, rps1, permissions, user, key) == Next
    ensures Check(roles, rps2, permissions, user, key) == Next
  {
    if !IsSuperAdmin(user) {
      var role := RoleOf(roles, user).value;
      var rp :| rp in rps1 && rp.0 == role && rp.1 in permissions && permissions[rp.1].key == key;
      assert rp in rps2;
    }
  }

  /**
   * Behind `authMiddleware` the context has no `type` claim, so the bypass
   * is never taken: such a request passes only through its role's grants.
   */
  lemma NoBypassBehindAuthMiddleware(header: Option<string>, verify: string -> Option<Claims>, admitted: string,
                                     roles: map<Id, Role>, rps: set<(Id, Id)>,
                                     permissions: map<Id, Permission>, key: string)
    requires AuthMiddleware.AuthenticateAs(header, verify, admitted).Pass?
    ensures var user := AuthMiddleware.AuthenticateAs(header, verify, admitted).user;
            !IsSuperAdmin(user) &&
            (Check(roles, rps, permissions, user, key) == Next ==>
               RoleHolds(rps, permissions, RoleOf(roles, user).value, key))
  {
    AuthMiddleware.ContextLacksPermissionsAndTenant(header, verify, admitted);
  }
}
