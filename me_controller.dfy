/**
 * The profile endpoint of a tenant user: who the caller is, the tenant,
 * the current subscription, the modules of its plan, the permission keys
 * of the caller's role and a sidebar built from the modules.
 */
module MeController {
  import opened Base
  import opened Schema
  import opened Db
  import opened PlanService

  datatype ModuleRef = ModuleRef(key: string, name: string)

  datatype SidebarEntry = SidebarEntry(key: string, title: string, icon: string, path: string)

  datatype UserView = UserView(id: Id, email: string, role: Option<string>)

  datatype TenantView = TenantView(id: Id, name: string, tenantType: string)

  datatype SubscriptionView = SubscriptionView(plan: string, status: SubStatus, expiresAt: int)

  datatype MeConfig = MeConfig(
    user: UserView,
    tenant: TenantView,
    subscription: Option<SubscriptionView>,
    modules: seq<ModuleRef>,
    permissions: seq<string>,
    sidebar: seq<SidebarEntry>)

  datatype MeResponse = MeOk(config: MeConfig) | MeFailed(status: int, message: string)

  // ------------------------------------------------------------------
  // resolveIcon
  // ------------------------------------------------------------------

  /** The icon table of the profile sidebar. */
  const IconMap: map<string, string> := map[
    "students" := "users",
    "attendance" := "calendar-check",
    "fees" := "wallet",
    "exams" := "file-text",
    "batches" := "layers"
  ]

  /** The table's icon for the five known keys, "grid" for every other key. */
  function ResolveIcon(key: string): (icon: string)
    ensures key == "students" ==> icon == "users"
    ensures key == "attendance" ==> icon == "calendar-check"
    ensures key == "fees" ==> icon == "wallet"
    ensures key == "exams" ==> icon == "file-text"
    ensures key == "batches" ==> icon == "layers"
    ensures key !in {"students", "attendance", "fees", "exams", "batches"} ==> icon == "grid"
    ensures icon != ""
  {
    if key in IconMap then IconMap[key] else "grid"
  }

  /**
   * What `map[key]` yields on a plain JavaScript object: an own entry, or a
   * member inherited from `Object.prototype` (a function, or the prototype
   * itself for `__proto__`), or nothing.
   */
  datatype Lookup = Own(icon: string) | Inherited(member: string) | Missing

  /** The members every object literal inherits from `Object.prototype`. */
  const ObjectPrototypeMembers: set<string> := {
    "constructor", "__proto__", "toString", "toLocaleString", "valueOf", "hasOwnProperty",
    "isPrototypeOf", "propertyIsEnumerable", "__defineGetter__", "__defineSetter__",
    "__lookupGetter__", "__lookupSetter__"
  }

  function LookupIcon(key: string): Lookup {
    if key in IconMap then Own(IconMap[key])
    else if key in ObjectPrototypeMembers then Inherited(key)
    else Missing
  }

  /** `map[key] || "grid"` as written: an inherited member is truthy and is returned instead of an icon name. */
  function ResolveIconAsWritten(key: string): (r: Lookup)
    ensures key in IconMap ==> r == Own(ResolveIcon(key))
    ensures key !in IconMap && key !in ObjectPrototypeMembers ==> r == Own(ResolveIcon(key))
    ensures key in ObjectPrototypeMembers ==> r == Inherited(key)
  {
    match LookupIcon(key)
    case Own(icon) => if icon != "" then Own(icon) else Own("grid")
    case Inherited(member) => Inherited(member)
    case Missing => Own("grid")
  }

  /** A module whose key is "constructor" gets no icon name from the table as written. */
  lemma ConstructorKeyGetsNoIcon()
    ensures ResolveIconAsWritten("constructor") == Inherited("constructor")
    ensures ResolveIcon("constructor") == "grid"
  {
    assert "constructor" !in IconMap;
  }

  // ------------------------------------------------------------------
  // sidebar
  // ------------------------------------------------------------------

  function EntryOf(m: ModuleRef): SidebarEntry {
    SidebarEntry(m.key, m.name, ResolveIcon(m.key), "/app/" + m.key)
  }

  /** One sidebar entry per module, in the modules' order. */
  function SidebarOf(modules: seq<ModuleRef>): (r: seq<SidebarEntry>)
    ensures |r| == |modules|
    ensures forall i :: 0 <= i < |r| ==>
              r[i].key == modules[i].key && r[i].title == modules[i].name &&
              r[i].icon == ResolveIcon(modules[i].key) && r[i].path == "/app/" + modules[i].key
  {
    seq(|modules|, i requires 0 <= i < |modules| => EntryOf(modules[i]))
  }

  /** The path names its module: different keys give different paths. */
  lemma PathsNameTheirModule(modules: seq<ModuleRef>, i: nat, j: nat)
    requires i < |modules| && j < |modules| && modules[i].key != modules[j].key
    ensures SidebarOf(modules)[i].path != SidebarOf(modules)[j].path
  {
    var a, b := modules[i].key, modules[j].key;
    assert ("/app/" + a)[5..] == a;
    assert ("/app/" + b)[5..] == b;
  }

  // ------------------------------------------------------------------
  // modules and permissions
  // ------------------------------------------------------------------

  function RefOf(m: Module): ModuleRef {
    ModuleRef(m.key, m.name)
  }

  function RefsOf(ids: seq<Id>, modules: map<Id, Module>): (r: seq<ModuleRef>)
    requires forall i :: 0 <= i < |ids| ==> ids[i] in modules
    ensures |r| == |ids|
    ensures forall i :: 0 <= i < |ids| ==> r[i] == RefOf(modules[ids[i]])
  {
    if ids == [] then [] else [RefOf(modules[ids[0]])] + RefsOf(ids[1..], modules)
  }

  function KeysOf(rows: seq<(Id, Id)>, perms: map<Id, Permission>): (r: seq<string>)
    requires forall i :: 0 <= i < |rows| ==> rows[i].1 in perms
    ensures |r| == |rows|
    ensures forall i :: 0 <= i < |rows| ==> r[i] == perms[rows[i].1].key
  {
    if rows == [] then [] else [perms[rows[0].1].key] + KeysOf(rows[1..], perms)
  }

  /** `ms` lists the modules `ids`, each once. */
  ghost predicate ListsModules(ms: seq<ModuleRef>, modules: map<Id, Module>, ids: set<Id>) {
    |ms| == |ids| &&
    (forall m :: m in ids ==> m in modules && RefOf(modules[m]) in ms) &&
    (forall k :: 0 <= k < |ms| ==> exists m :: m in ids && m in modules && ms[k] == RefOf(modules[m]))
  }

  /** `plan.modules.map(...)`: the plan's linked modules, in an order the store chooses. */
  method LinkedModules(st: Store, planId: Id) returns (ms: seq<ModuleRef>)
    requires st.PlanModulesValid() && st.ModuleKeysUnique()
    ensures ListsModules(ms, st.modules, PlanModuleIds(st.planModules, planId))
    ensures forall i, j :: 0 <= i < j < |ms| ==> ms[i].key != ms[j].key
  {
    var ids := Enumerate(PlanModuleIds(st.planModules, planId));
    assert forall i :: 0 <= i < |ids| ==> ids[i] in st.modules by {
      forall i | 0 <= i < |ids|
        ensures ids[i] in st.modules
      {
        assert (planId, ids[i]) in st.planModules;
      }
    }
    ms := RefsOf(ids, st.modules);
    forall k | 0 <= k < |ms|
      ensures exists m :: m in PlanModuleIds(st.planModules, planId) && m in st.modules && ms[k] == RefOf(st.modules[m])
    {
      assert ids[k] in PlanModuleIds(st.planModules, planId);
    }
    forall m | m in PlanModuleIds(st.planModules, planId)
      ensures m in st.modules && RefOf(st.modules[m]) in ms
    {
      var k :| 0 <= k < |ids| && ids[k] == m;
      assert ms[k] == RefOf(st.modules[m]);
    }
  }

  /** The role-permission rows a `where: { roleId }` condition selects. */
  function Grants(rps: set<(Id, Id)>, f: IdFilter): (r: set<(Id, Id)>)
    ensures forall rp :: rp in r <==> rp in rps && Matches(f, rp.0)
  {
    set rp | rp in rps && Matches(f, rp.0)
  }

  /** The keys of the permissions those rows link. */
  function GrantedKeys(rps: set<(Id, Id)>, perms: map<Id, Permission>, f: IdFilter): (r: set<string>)
    ensures forall rp :: rp in Grants(rps, f) && rp.1 in perms ==> perms[rp.1].key in r
  {
    set rp | rp in Grants(rps, f) && rp.1 in perms :: perms[rp.1].key
  }

  /** `keys` has one entry per selected row, and its entries are exactly the granted keys. */
  ghost predicate ListsGrants(keys: seq<string>, rps: set<(Id, Id)>, perms: map<Id, Permission>, f: IdFilter) {
    |keys| == |Grants(rps, f)| && forall k :: k in keys <==> k in GrantedKeys(rps, perms, f)
  }

  method GrantedKeyList(st: Store, f: IdFilter) returns (keys: seq<string>)
    requires st.RolePermissionsValid()
    ensures ListsGrants(keys, st.rolePermissions, st.permissions, f)
  {
    var rows := Enumerate(Grants(st.rolePermissions, f));
    keys := KeysOf(rows, st.permissions);
    forall k | k in GrantedKeys(st.rolePermissions, st.permissions, f)
      ensures k in keys
    {
      var rp :| rp in Grants(st.rolePermissions, f) && rp.1 in st.permissions && st.permissions[rp.1].key == k;
      var i :| 0 <= i < |rows| && rows[i] == rp;
      assert keys[i] == k;
    }
    forall k | k in keys
      ensures k in GrantedKeys(st.rolePermissions, st.permissions, f)
    {
      var i :| 0 <= i < |keys| && keys[i] == k;
      assert rows[i] in Grants(st.rolePermissions, f);
    }
  }

  /** With the caller's role, the keys are exactly those of the permissions linked to that role. */
  lemma RoleKeys(rps: set<(Id, Id)>, perms: map<Id, Permission>, role: Id, k: string)
    ensures k in GrantedKeys(rps, perms, IdIs(role)) <==> exists p :: p in perms && (role, p) in rps && perms[p].key == k
  {
    if k in GrantedKeys(rps, perms, IdIs(role)) {
      var rp :| rp in Grants(rps, IdIs(role)) && rp.1 in perms && perms[rp.1].key == k;
      assert rp == (role, rp.1);
    }
  }

  /** A context without `roleId` drops the condition, so every grant of every role is listed. */
  lemma UndefinedRoleSeesEveryGrant(rps: set<(Id, Id)>, perms: map<Id, Permission>, rp: (Id, Id))
    requires rp in rps && rp.1 in perms
    ensures perms[rp.1].key in GrantedKeys(rps, perms, FilterOf(None))
  {
  }

  // ------------------------------------------------------------------
  // getMeConfig
  // ------------------------------------------------------------------

  /** `findUnique({ where: { id: userId } })` fails unless the id is a string. */
  function UserIdOf(ctx: Claims): (u: Option<Id>)
    ensures u.Some? <==> Field(ctx, "userId").Some? && Field(ctx, "userId").value.JStr?
    ensures u.Some? ==> Field(ctx, "userId") == Some(JStr(u.value))
  {
    match Field(ctx, "userId")
    case Some(JStr(s)) => Some(s)
    case _ => None
  }

  /** `user.role?.name`. */
  function RoleName(roles: map<Id, Role>, roleId: Option<Id>): Option<string> {
    if roleId.Some? && roleId.value in roles then Some(roles[roleId.value].name) else None
  }

  method GetMeConfig(st: Store, ctx: Claims, now: int) returns (r: MeResponse)
    requires st.Valid()
    ensures UserIdOf(ctx).None? ==> r == MeFailed(500, "Failed to load configuration")
    ensures var u := UserIdOf(ctx);
            u.Some? && (u.value !in st.users || st.users[u.value].tenantId.None?) ==>
              r == MeFailed(401, "Invalid tenant context")
    ensures var u := UserIdOf(ctx);
            u.Some? && u.value in st.users && st.users[u.value].tenantId.Some? &&
            (FilterOf(Field(ctx, "tenantId")).Rejected? || FilterOf(Field(ctx, "roleId")).Rejected?) ==>
              r == MeFailed(500, "Failed to load configuration")
    ensures r.MeOk? <==>
              var u := UserIdOf(ctx);
              u.Some? && u.value in st.users && st.users[u.value].tenantId.Some? &&
              !FilterOf(Field(ctx, "tenantId")).Rejected? && !FilterOf(Field(ctx, "roleId")).Rejected?
    ensures r.MeOk? ==>
              var uid := UserIdOf(ctx).value;
              var user := st.users[uid];
              var tid := user.tenantId.value;
              tid in st.tenants &&
              r.config.user == UserView(uid, user.email, RoleName(st.roles, user.roleId)) &&
              r.config.tenant == TenantView(tid, st.tenants[tid].name, st.tenants[tid].tenantType)
    ensures r.MeOk? ==>
              var sub := FirstLive(st.subscriptions, FilterOf(Field(ctx, "tenantId")), now, true);
              (sub.None? <==> r.config.subscription.None?) &&
              (sub.None? ==> r.config.modules == []) &&
              (sub.Some? ==>
                 var s := st.subscriptions[sub.value];
                 s.planId in st.plans &&
                 r.config.subscription == Some(SubscriptionView(st.plans[s.planId].name, Active, s.endDate)) &&
                 s.endDate > now &&
                 ListsModules(r.config.modules, st.modules, PlanModuleIds(st.planModules, s.planId)))
    ensures r.MeOk? ==>
              ListsGrants(r.config.permissions, st.rolePermissions, st.permissions, FilterOf(Field(ctx, "roleId"))) &&
              r.config.sidebar == SidebarOf(r.config.modules)
  {
    var uid := UserIdOf(ctx);
    if uid.None? {
      return MeFailed(500, "Failed to load configuration");
    }
    if uid.value !in st.users || st.users[uid.value].tenantId.None? {
      return MeFailed(401, "Invalid tenant context");
    }
    var user := st.users[uid.value];
    var tid := user.tenantId.value;
    assert tid in st.tenants by {
      assert st.UsersValid();
    }
    var tf := FilterOf(Field(ctx, "tenantId"));
    if tf.Rejected? {
      return MeFailed(500, "Failed to load configuration");
    }
    var sub := FirstLive(st.subscriptions, tf, now, true);
    var view: Option<SubscriptionView> := None;
    var modules: seq<ModuleRef> := [];
    if sub.Some? {
      var s := st.subscriptions[sub.value];
      assert s.planId in st.plans by {
        assert st.SubscriptionsValid();
      }
      view := Some(SubscriptionView(st.plans[s.planId].name, s.status, s.endDate));
      modules := LinkedModules(st, s.planId);
    }
    var rf := FilterOf(Field(ctx, "roleId"));
    if rf.Rejected? {
      return MeFailed(500, "Failed to load configuration");
    }
    var permissions := GrantedKeyList(st, rf);
    r := MeOk(MeConfig(
      UserView(uid.value, user.email, RoleName(st.roles, user.roleId)),
      TenantView(tid, st.tenants[tid].name, st.tenants[tid].tenantType),
      view, modules, permissions, SidebarOf(modules)));
  }
}
