/**
 * The database as one mutable object with a field per table. Every
 * operation of the backend is a method that takes the `Store`; a
 * `$transaction` either assigns all of its tables' new values or none.
 */
module Db {
  import opened Base
  import opened Schema

  /** Every key of `m` pairs an element of `left` with an element of `right`. */
  ghost predicate PairKeysWithin<V>(m: map<(Id, Id), V>, left: set<Id>, right: set<Id>) {
    forall k :: k in m ==> k.0 in left && k.1 in right
  }

  class Store {
    var tenants: map<Id, Tenant>
    var users: map<Id, User>
    var superAdmins: map<Id, SuperAdmin>
    var roles: map<Id, Role>
    var permissions: map<Id, Permission>
    /** RolePermission rows: (roleId, permissionId). */
    var rolePermissions: set<(Id, Id)>
    var modules: map<Id, Module>
    /** ModuleTenantType rows: (moduleId, tenantType). */
    var moduleTenantTypes: set<(Id, string)>
    var plans: map<Id, Plan>
    /** PlanModule rows: (planId, moduleId). */
    var planModules: set<(Id, Id)>
    /** Subscription rows in insertion order; unordered queries are assumed to return them in this order. */
    var subscriptions: seq<Subscription>
    /** TenantModule rows keyed by (tenantId, moduleId). */
    var tenantModules: map<(Id, Id), TenantModule>
    var loginAttempts: seq<LoginAttempt>
    var auditLog: seq<AuditEntry>

    /**
     * The foreign keys and unique columns the queries rely on: plan names,
     * module keys, permission keys and both e-mail columns are unique. Each
     * part reads only its own tables, so a write to one table leaves the
     * parts that do not mention it intact.
     */
    ghost predicate Valid()
      reads this
    {
      TenantModulesValid() && PlanModulesValid() && SubscriptionsValid() &&
      RolePermissionsValid() && ModuleTenantTypesValid() && UsersValid() && RolesValid() &&
      PlanNamesUnique() && ModuleKeysUnique() && PermissionKeysUnique() &&
      UserEmailsUnique() && SuperAdminEmailsUnique()
    }

    ghost predicate TenantModulesValid()
      reads this`tenantModules, this`tenants, this`modules
    {
      PairKeysWithin(tenantModules, tenants.Keys, modules.Keys)
    }

    ghost predicate PlanModulesValid()
      reads this`planModules, this`plans, this`modules
    {
      forall pm :: pm in planModules ==> pm.0 in plans && pm.1 in modules
    }

    ghost predicate SubscriptionsValid()
      reads this`subscriptions, this`tenants, this`plans
    {
      forall i :: 0 <= i < |subscriptions| ==>
        subscriptions[i].tenantId in tenants && subscriptions[i].planId in plans
    }

    ghost predicate RolePermissionsValid()
      reads this`rolePermissions, this`roles, this`permissions
    {
      forall rp :: rp in rolePermissions ==> rp.0 in roles && rp.1 in permissions
    }

    ghost predicate ModuleTenantTypesValid()
      reads this`moduleTenantTypes, this`modules
    {
      forall mt :: mt in moduleTenantTypes ==> mt.0 in modules
    }

    ghost predicate UsersValid()
      reads this`users, this`tenants, this`roles
    {
      forall u :: u in users ==>
        (users[u].tenantId.Some? ==> users[u].tenantId.value in tenants) &&
        (users[u].roleId.Some? ==> users[u].roleId.value in roles)
    }

    ghost predicate RolesValid()
      reads this`roles, this`tenants
    {
      forall r :: r in roles ==> roles[r].tenantId.Some? ==> roles[r].tenantId.value in tenants
    }

    ghost predicate PlanNamesUnique()
      reads this`plans
    {
      forall p, q :: p in plans && q in plans && plans[p].name == plans[q].name ==> p == q
    }

    ghost predicate ModuleKeysUnique()
      reads this`modules
    {
      forall p, q :: p in modules && q in modules && modules[p].key == modules[q].key ==> p == q
    }

    ghost predicate PermissionKeysUnique()
      reads this`permissions
    {
      forall p, q :: p in permissions && q in permissions && permissions[p].key == permissions[q].key ==> p == q
    }

    ghost predicate UserEmailsUnique()
      reads this`users
    {
      forall p, q :: p in users && q in users && users[p].email == users[q].email ==> p == q
    }

    ghost predicate SuperAdminEmailsUnique()
      reads this`superAdmins
    {
      forall p, q :: p in superAdmins && q in superAdmins && superAdmins[p].email == superAdmins[q].email ==> p == q
    }

    /** An empty database. */
    constructor ()
      ensures Valid()
      ensures tenants == map[] && users == map[] && superAdmins == map[] && roles == map[]
      ensures permissions == map[] && rolePermissions == {} && modules == map[]
      ensures moduleTenantTypes == {} && plans == map[] && planModules == {}
      ensures subscriptions == [] && tenantModules == map[] && loginAttempts == [] && auditLog == []
    {
      tenants := map[];
      users := map[];
      superAdmins := map[];
      roles := map[];
      permissions := map[];
      rolePermissions := {};
      modules := map[];
      moduleTenantTypes := {};
      plans := map[];
      planModules := {};
      subscriptions := [];
      tenantModules := map[];
      loginAttempts := [];
      auditLog := [];
    }

    /** Replaces the permission table by one that keeps every id and has unique keys. */
    method SetPermissions(perms: map<Id, Permission>)
      requires Valid()
      requires permissions.Keys <= perms.Keys
      requires forall p, q :: p in perms && q in perms && perms[p].key == perms[q].key ==> p == q
      modifies this`permissions
      ensures Valid()
      ensures permissions == perms
    {
      permissions := perms;
    }

    /** Replaces the tenant-module table by one whose rows name existing tenants and modules. */
    method SetTenantModules(tms: map<(Id, Id), TenantModule>)
      requires Valid()
      requires PairKeysWithin(tms, tenants.Keys, modules.Keys)
      modifies this`tenantModules
      ensures Valid()
      ensures tenantModules == tms
    {
      tenantModules := tms;
    }
  }
}
