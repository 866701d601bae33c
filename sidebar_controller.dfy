/**
 * `getAdminSidebar`: normalises the request context, reads the tenant's
 * enabled modules, runs the sidebar composer and reshapes its output for
 * the client.
 */
module SidebarController {
  import opened Base
  import opened Schema
  import opened Db
  import opened SidebarConfig
  import opened SidebarService
  import AuthMiddleware

  // ------------------------------------------------------------------
  // Request context
  // ------------------------------------------------------------------

  /**
   * `req.user?.tenant?.type ?? null`. A type that is not a string takes the
   * place of no type: it equals none of the listed tenant types.
   */
  function TenantTypeOf(user: Option<Claims>): (t: Option<string>)
    ensures t.Some? ==> user.Some? && "tenant" in user.value && user.value["tenant"].JObj? &&
                        Field(user.value["tenant"].fields, "type") == Some(JStr(t.value))
  {
    if user.Some? && "tenant" in user.value && user.value["tenant"].JObj? then
      match Field(user.value["tenant"].fields, "type")
      case Some(JStr(s)) => Some(s)
      case _ => None
    else None
  }

  /** `typeof p === "string" ? p : p?.key`; `None` is `undefined`. */
  function PermissionKey(p: Json): (k: Option<Json>)
    ensures p.JStr? ==> k == Some(p)
    ensures p.JObj? ==> k == Field(p.fields, "key")
    ensures !p.JStr? && !p.JObj? ==> k.None?
  {
    match p
    case JStr(_) => Some(p)
    case JObj(f) => Field(f, "key")
    case _ => None
  }

  /** `.map(PermissionKey).filter(Boolean)`. */
  function NormalizeItems(items: seq<Json>): (r: seq<Json>)
    ensures |r| <= |items|
    ensures forall k :: 0 <= k < |r| ==> Truthy(r[k])
  {
    if items == [] then []
    else
      var key := PermissionKey(items[0]);
      (if Present(key) then [key.value] else []) + NormalizeItems(items[1..])
  }

  /** `req.user?.permissions ?? []`, normalised; anything but an array yields `[]`. */
  function NormalizePermissions(raw: Option<Json>): (r: seq<Json>)
    ensures !(raw.Some? && raw.value.JArr?) ==> r == []
    ensures forall k :: 0 <= k < |r| ==> Truthy(r[k])
  {
    if raw.Some? && raw.value.JArr? then NormalizeItems(raw.value.items) else []
  }

  /** A value survives normalisation iff it is truthy and is the key of some entry. */
  lemma {:induction false} NormalizedMembers(items: seq<Json>, x: Json)
    ensures x in NormalizeItems(items) <==>
              Truthy(x) && exists i :: 0 <= i < |items| && PermissionKey(items[i]) == Some(x)
  {
    if items != [] {
      NormalizedMembers(items[1..], x);
      var key := PermissionKey(items[0]);
      if x in NormalizeItems(items[1..]) {
        var i :| 0 <= i < |items[1..]| && PermissionKey(items[1..][i]) == Some(x);
        assert PermissionKey(items[1 + i]) == Some(x);
      }
      if Truthy(x) && exists i :: 0 <= i < |items| && PermissionKey(items[i]) == Some(x) {
        var i :| 0 <= i < |items| && PermissionKey(items[i]) == Some(x);
        if i > 0 {
          assert items[1..][i - 1] == items[i];
        }
      }
    }
  }

  /** A list of non-empty permission strings passes through unchanged. */
  lemma {:induction false} NonEmptyStringsKept(items: seq<Json>)
    requires forall k :: 0 <= k < |items| ==> items[k].JStr? && items[k].s != ""
    ensures NormalizeItems(items) == items
  {
    if items != [] {
      NonEmptyStringsKept(items[1..]);
      assert [items[0]] + items[1..] == items;
    }
  }

  // ------------------------------------------------------------------
  // Enabled modules
  // ------------------------------------------------------------------

  /** An enabled TenantModule row the tenant filter selects, whose upper-cased module key is not empty. */
  predicate Contributes(f: IdFilter, tms: map<(Id, Id), TenantModule>, modules: map<Id, Module>, row: (Id, Id)) {
    row in tms && tms[row].enabled && Matches(f, row.0) && row.1 in modules && ToUpper(modules[row.1].key) != ""
  }

  /** `enabledModules`: the upper-cased keys of the enabled TenantModule rows of the tenant. */
  function EnabledModuleKeys(f: IdFilter, tms: map<(Id, Id), TenantModule>, modules: map<Id, Module>): (r: set<string>)
    ensures "" !in r
  {
    set row | row in tms && Contributes(f, tms, modules, row) :: ToUpper(modules[row.1].key)
  }

  lemma {:induction false} ToUpperIdempotent(s: string)
    ensures ToUpper(ToUpper(s)) == ToUpper(s)
  {
    forall k | 0 <= k < |s|
      ensures ToUpper(ToUpper(s))[k] == ToUpper(s)[k]
    {
      var ch := s[k];
      assert ToUpper(s)[k] == UpperChar(ch);
    }
  }

  /** Every enabled key is upper-case and non-empty. */
  lemma EnabledKeysAreUpperCase(f: IdFilter, tms: map<(Id, Id), TenantModule>, modules: map<Id, Module>, x: string)
    requires x in EnabledModuleKeys(f, tms, modules)
    ensures x != "" && ToUpper(x) == x
  {
    var row :| row in tms && Contributes(f, tms, modules, row) && x == ToUpper(modules[row.1].key);
    ToUpperIdempotent(modules[row.1].key);
  }

  /** Rows of other tenants, and disabled rows, never contribute. */
  lemma OnlyTheTenantsEnabledRows(t: Id, tms: map<(Id, Id), TenantModule>, modules: map<Id, Module>)
    ensures EnabledModuleKeys(IdIs(t), tms, modules)
         == EnabledModuleKeys(IdIs(t), map row | row in tms && row.0 == t && tms[row].enabled :: tms[row], modules)
  {
    var e := map row | row in tms && row.0 == t && tms[row].enabled :: tms[row];
    forall x
      ensures x in EnabledModuleKeys(IdIs(t), tms, modules) <==> x in EnabledModuleKeys(IdIs(t), e, modules)
    {
      if x in EnabledModuleKeys(IdIs(t), tms, modules) {
        var row :| row in tms && Contributes(IdIs(t), tms, modules, row) && x == ToUpper(modules[row.1].key);
        assert row in e && Contributes(IdIs(t), e, modules, row);
      }
      if x in EnabledModuleKeys(IdIs(t), e, modules) {
        var row :| row in e && Contributes(IdIs(t), e, modules, row) && x == ToUpper(modules[row.1].key);
        assert row in tms && Contributes(IdIs(t), tms, modules, row);
      }
    }
  }

  // ------------------------------------------------------------------
  // Reshaping for the client
  // ------------------------------------------------------------------

  /** A client sidebar entry; `children` is `None` (undefined) for a node without a children array. */
  datatype UiNode = UiNode(
    id: string,
    key: string,
    title: string,  // the source's `label`
    icon: string,
    route: Option<string>,
    children: Option<seq<UiNode>>)

  const DefaultIcon: string := "file-text"

  /** The client entry of one node. */
  function NormalizeNode(n: NavNode): (u: UiNode)
    decreases n, 1
    ensures u.id == n.key && u.key == n.key && u.title == n.title && u.route == n.route
    ensures u.icon == if Filled(n.icon) then n.icon.value else DefaultIcon
    ensures u.children.Some? <==> n.children.Children?
    ensures n.children.Children? ==> |u.children.value| == |n.children.nodes|
  {
    UiNode(n.key, n.key, n.title,
           if Filled(n.icon) then n.icon.value else DefaultIcon,
           n.route,
           if n.children.Children? then Some(NormalizeSidebarForUI(n.children.nodes)) else None)
  }

  /** `normalizeSidebarForUI`. */
  function NormalizeSidebarForUI(nodes: seq<NavNode>): (r: seq<UiNode>)
    decreases nodes, 0
    ensures |r| == |nodes|
    ensures forall i :: 0 <= i < |nodes| ==> r[i].id == nodes[i].key && r[i].key == nodes[i].key
  {
    if nodes == [] then [] else [NormalizeNode(nodes[0])] + NormalizeSidebarForUI(nodes[1..])
  }

  /** The client list is entry-for-entry the normalisation of the composer's list. */
  lemma {:induction false} NormalizedPointwise(nodes: seq<NavNode>, i: nat)
    requires i < |nodes|
    ensures NormalizeSidebarForUI(nodes)[i] == NormalizeNode(nodes[i])
  {
    if i > 0 {
      NormalizedPointwise(nodes[1..], i - 1);
    }
  }

  lemma NormalizedEverywhere(nodes: seq<NavNode>)
    ensures forall i :: 0 <= i < |nodes| ==> NormalizeSidebarForUI(nodes)[i] == NormalizeNode(nodes[i])
  {
    forall i | 0 <= i < |nodes|
      ensures NormalizeSidebarForUI(nodes)[i] == NormalizeNode(nodes[i])
    {
      NormalizedPointwise(nodes, i);
    }
  }

  // ------------------------------------------------------------------
  // The handler
  // ------------------------------------------------------------------

  datatype SidebarResponse = SidebarOk(sidebar: seq<UiNode>) | SidebarFailed(status: int, message: string)

  /** The composer's input as the handler builds it from the context and the store. */
  function AudienceOf(user: Option<Claims>, tms: map<(Id, Id), TenantModule>, modules: map<Id, Module>): Audience
  {
    var raw := if user.Some? && "permissions" in user.value && !user.value["permissions"].JNull?
               then Some(user.value["permissions"]) else None;
    var tenantId := if user.Some? then Field(user.value, "tenantId") else None;
    Audience(TenantTypeOf(user), EnabledModuleKeys(FilterOf(tenantId), tms, modules), NormalizePermissions(raw))
  }

  /** The response for a context over the TenantModule and Module tables. */
  function SidebarOf(user: Option<Claims>, tms: map<(Id, Id), TenantModule>, modules: map<Id, Module>): (r: SidebarResponse)
    ensures var tenantId := if user.Some? then Field(user.value, "tenantId") else None;
            FilterOf(tenantId).Rejected? <==> r == SidebarFailed(500, "Failed to load sidebar")
    ensures r.SidebarOk? ==> |r.sidebar| == |BuildSidebar(AudienceOf(user, tms, modules))|
    ensures r.SidebarOk? ==> forall i :: 0 <= i < |r.sidebar| ==>
              r.sidebar[i] == NormalizeNode(BuildSidebar(AudienceOf(user, tms, modules))[i])
  {
    var tenantId := if user.Some? then Field(user.value, "tenantId") else None;
    var nodes := BuildSidebar(AudienceOf(user, tms, modules));
    NormalizedEverywhere(nodes);
    // a `tenantId` that is not a string fails the query's validation and lands in the catch
    if FilterOf(tenantId).Rejected? then SidebarFailed(500, "Failed to load sidebar")
    else SidebarOk(NormalizeSidebarForUI(nodes))
  }

  /** `getAdminSidebar`: reads the store and changes nothing. */
  method GetAdminSidebar(st: Store, user: Option<Claims>) returns (r: SidebarResponse)
    ensures r == SidebarOf(user, st.tenantModules, st.modules)
  {
    r := SidebarOf(user, st.tenantModules, st.modules);
  }

  /**
   * Behind `authMiddleware` the composer always sees no tenant type and an
   * empty permission list, so every permission gate is open.
   */
  lemma BehindAuthMiddleware(header: Option<string>, verify: string -> Option<Claims>, admitted: string,
                             tms: map<(Id, Id), TenantModule>, modules: map<Id, Module>)
    requires AuthMiddleware.AuthenticateAs(header, verify, admitted).Pass?
    ensures var a := AudienceOf(Some(AuthMiddleware.AuthenticateAs(header, verify, admitted).user), tms, modules);
            a.tenantType.None? && a.permissions == []
  {
    AuthMiddleware.ContextLacksPermissionsAndTenant(header, verify, admitted);
  }

  /** Without a tenant type, neither the EDUCATION nor the HEALTHCARE subtree is shown. */
  lemma NoTenantTypeHidesDomainTrees(a: Audience, o: NavNode)
    requires a.tenantType.None?
    requires o in BuildSidebar(a)
    ensures o.key != "EDUCATION" && o.key != "HEALTHCARE"
  {
    var t := SidebarTree;
    forall n | n in t
      ensures n.key == "EDUCATION" ==> n.domain == Some("EDUCATION")
      ensures n.key == "HEALTHCARE" ==> n.domain == Some("HEALTHCARE")
    {
      RootDomains(n);
    }
    RefusedDomainRootsHidden(t, a, o, "EDUCATION");
    RefusedDomainRootsHidden(t, a, o, "HEALTHCARE");
  }
}
