/**
 * `buildSidebar` of the sidebar service: prunes the static navigation tree
 * by the tenant's domain, its enabled modules and the caller's permissions.
 */
module SidebarService {
  import opened Base
  import opened SidebarDomain
  import opened SidebarConfig

  /** Modules whose nodes are shown whether or not the tenant enabled them. */
  const CoreModules: seq<string> := [
    "DASHBOARD", "USERS", "ROLES", "SETTINGS", "AUDIT_LOGS",
    "TENANT_PROFILE", "BRANDING", "PERMISSIONS", "SIDEBAR"
  ]

  /** What the composer is given. Permissions are the normalised list of the controller. */
  datatype Audience = Audience(tenantType: Option<string>, enabledModules: set<string>, permissions: seq<Json>)

  predicate DomainVisible(node: NavNode, a: Audience) {
    !Filled(node.domain) || IsDomainAllowed(node.domain, a.tenantType)
  }

  /** The module gate. */
  predicate ModuleVisible(node: NavNode, a: Audience) {
    !Filled(node.moduleKey) || node.moduleKey.value in CoreModules || node.moduleKey.value in a.enabledModules
  }

  /** The permission gate: it only applies when the permission list is non-empty. */
  predicate PermissionVisible(node: NavNode, a: Audience) {
    !Filled(node.permission) || |a.permissions| == 0 || JStr(node.permission.value) in a.permissions
  }

  /** `filterNode`. */
  function FilterNode(node: NavNode, a: Audience): (r: Option<NavNode>)
    decreases node, 1
    ensures !DomainVisible(node, a) ==> r.None?
    ensures r.Some? ==> r.value.key == node.key && r.value.(children := node.children) == node
  {
    if !DomainVisible(node, a) then None
    else
      var kept := if node.children.Children? then FilterNodes(node.children.nodes, a) else [];
      if node.children.Children? && |kept| > 0 then Some(node.(children := Children(kept)))
      else if !ModuleVisible(node, a) then None
      else if !PermissionVisible(node, a) then None
      else Some(node)
  }

  /** `nodes.map(filterNode).filter(Boolean)`. */
  function FilterNodes(nodes: seq<NavNode>, a: Audience): (r: seq<NavNode>)
    decreases nodes, 0
    ensures |r| <= |nodes|
  {
    if nodes == [] then []
    else
      var head := FilterNode(nodes[0], a);
      (if head.Some? then [head.value] else []) + FilterNodes(nodes[1..], a)
  }

  /** `buildSidebar`. */
  function BuildSidebar(a: Audience): seq<NavNode> {
    FilterNodes(SidebarTree, a)
  }

  // ------------------------------------------------------------------
  // What a kept node looks like
  // ------------------------------------------------------------------

  /** A node with at least one surviving child is kept with exactly those children; its own gates are not consulted. */
  lemma KeptWithSurvivingChildren(node: NavNode, a: Audience)
    requires DomainVisible(node, a) && node.children.Children?
    requires |FilterNodes(node.children.nodes, a)| > 0
    ensures FilterNode(node, a) == Some(node.(children := Children(FilterNodes(node.children.nodes, a))))
  {
  }

  /** With no surviving child the node falls through to its own gates and, if it passes, is returned unchanged. */
  lemma FallsThroughToOwnGates(node: NavNode, a: Audience)
    requires DomainVisible(node, a)
    requires node.children.NoChildren? || |FilterNodes(node.children.nodes, a)| == 0
    ensures FilterNode(node, a) == (if ModuleVisible(node, a) && PermissionVisible(node, a) then Some(node) else None)
  {
  }

  /** The permission gate is off for an empty permission list. */
  lemma EmptyPermissionsOpenTheGate(node: NavNode, a: Audience)
    requires |a.permissions| == 0
    ensures PermissionVisible(node, a)
  {
  }

  // ------------------------------------------------------------------
  // The output is a pruned copy of the input
  // ------------------------------------------------------------------

  /** `o` is `n` itself or `n` with its children array pruned. */
  ghost predicate PrunedNode(o: NavNode, n: NavNode)
    decreases n, 1
  {
    o == n ||
    (n.children.Children? && o.children.Children? && o.(children := n.children) == n &&
     PrunedList(o.children.nodes, n.children.nodes))
  }

  /** `os` is an order-preserving subsequence of pruned copies of `ns`. */
  ghost predicate PrunedList(os: seq<NavNode>, ns: seq<NavNode>)
    decreases ns, 0
  {
    if os == [] then true
    else if ns == [] then false
    else (PrunedNode(os[0], ns[0]) && PrunedList(os[1..], ns[1..])) || PrunedList(os, ns[1..])
  }

  lemma {:induction false} FilterNodeIsPruned(node: NavNode, a: Audience)
    decreases node, 1
    ensures FilterNode(node, a).Some? ==> PrunedNode(FilterNode(node, a).value, node)
  {
    if DomainVisible(node, a) && node.children.Children? {
      FilterNodesArePruned(node.children.nodes, a);
    }
  }

  lemma {:induction false} FilterNodesArePruned(nodes: seq<NavNode>, a: Audience)
    decreases nodes, 0
    ensures PrunedList(FilterNodes(nodes, a), nodes)
  {
    if nodes != [] {
      FilterNodeIsPruned(nodes[0], a);
      FilterNodesArePruned(nodes[1..], a);
      var head := FilterNode(nodes[0], a);
      var rest := FilterNodes(nodes[1..], a);
      if head.Some? {
        assert ([head.value] + rest)[1..] == rest;
      } else {
        assert FilterNodes(nodes, a) == rest;
        PrunedListSkip(rest, nodes);
      }
    }
  }

  lemma PrunedListSkip(os: seq<NavNode>, ns: seq<NavNode>)
    requires ns != [] && PrunedList(os, ns[1..])
    ensures PrunedList(os, ns)
  {
  }

  /** Every output node comes from an input node that itself passes `FilterNode`, with the same key. */
  lemma {:induction false} FilterNodesOrigin(nodes: seq<NavNode>, a: Audience, o: NavNode)
    requires o in FilterNodes(nodes, a)
    ensures exists n :: n in nodes && FilterNode(n, a) == Some(o) && n.key == o.key
  {
    var head := FilterNode(nodes[0], a);
    if head.Some? && head.value == o {
      assert nodes[0] in nodes;
    } else {
      FilterNodesOrigin(nodes[1..], a, o);
      var n :| n in nodes[1..] && FilterNode(n, a) == Some(o) && n.key == o.key;
      assert n in nodes;
    }
  }

  lemma {:induction false} FilterNodesKeeps(nodes: seq<NavNode>, a: Audience, i: nat)
    requires i < |nodes| && FilterNode(nodes[i], a).Some?
    ensures FilterNode(nodes[i], a).value in FilterNodes(nodes, a)
  {
    if i > 0 {
      FilterNodesKeeps(nodes[1..], a, i - 1);
      assert nodes[1..][i - 1] == nodes[i];
    }
  }

  // ------------------------------------------------------------------
  // The empty permission list shows the most
  // ------------------------------------------------------------------

  /** Whatever a permission list lets through, the empty list lets through as well. */
  lemma {:induction false} EmptyPermissionsKeepNode(node: NavNode, a: Audience)
    decreases node, 1
    requires FilterNode(node, a).Some?
    ensures FilterNode(node, a.(permissions := [])).Some?
  {
    var e := a.(permissions := []);
    if node.children.Children? && |FilterNodes(node.children.nodes, a)| > 0 {
      EmptyPermissionsKeepSome(node.children.nodes, a);
    }
  }

  lemma {:induction false} EmptyPermissionsKeepSome(nodes: seq<NavNode>, a: Audience)
    decreases nodes, 0
    requires |FilterNodes(nodes, a)| > 0
    ensures |FilterNodes(nodes, a.(permissions := []))| > 0
  {
    var e := a.(permissions := []);
    if FilterNode(nodes[0], a).Some? {
      EmptyPermissionsKeepNode(nodes[0], a);
    } else {
      EmptyPermissionsKeepSome(nodes[1..], a);
    }
  }

  // ------------------------------------------------------------------
  // The shipped tree
  // ------------------------------------------------------------------

  /** DASHBOARD (COMMON domain, core module, no permission) is always the first entry. */
  lemma DashboardAlwaysFirst(a: Audience)
    ensures |BuildSidebar(a)| >= 1 && BuildSidebar(a)[0] == DashboardNode
  {
    assert IsDomainAllowed(Some("COMMON"), a.tenantType);
    assert "DASHBOARD" in CoreModules;
    assert FilterNode(DashboardNode, a) == Some(DashboardNode);
  }

  lemma RootDomains(n: NavNode)
    requires n in SidebarTree
    ensures n.key == "EDUCATION" ==> n.domain == Some("EDUCATION")
    ensures n.key == "HEALTHCARE" ==> n.domain == Some("HEALTHCARE")
  {
  }

  /** A top-level node that belongs to a domain the tenant type is refused never reaches the output. */
  lemma {:induction false} RefusedDomainRootsHidden(nodes: seq<NavNode>, a: Audience, o: NavNode, k: string)
    requires !IsDomainAllowed(Some(k), a.tenantType)
    requires forall n :: n in nodes && n.key == k ==> n.domain == Some(k)
    requires o in FilterNodes(nodes, a)
    ensures o.key != k
  {
    FilterNodesOrigin(nodes, a, o);
    var n :| n in nodes && FilterNode(n, a) == Some(o) && n.key == o.key;
  }

  /** Neither the EDUCATION nor the HEALTHCARE domain admits RESTAURANT. */
  lemma RestaurantRefused()
    ensures !IsDomainAllowed(Some("EDUCATION"), Some("RESTAURANT"))
    ensures !IsDomainAllowed(Some("HEALTHCARE"), Some("RESTAURANT"))
  {
  }

  /** The top-level EDUCATION and HEALTHCARE nodes belong to the domains of the same name. */
  lemma RootKeysNameDomains()
    ensures forall n :: n in SidebarTree && n.key == "EDUCATION" ==> n.domain == Some("EDUCATION")
    ensures forall n :: n in SidebarTree && n.key == "HEALTHCARE" ==> n.domain == Some("HEALTHCARE")
  {
    forall n | n in SidebarTree
      ensures n.key == "EDUCATION" ==> n.domain == Some("EDUCATION")
      ensures n.key == "HEALTHCARE" ==> n.domain == Some("HEALTHCARE")
    {
      RootDomains(n);
    }
  }

  /** A RESTAURANT tenant never sees the EDUCATION or HEALTHCARE subtrees. */
  lemma RestaurantSeesNoEducationOrHealthcare(a: Audience, o: NavNode)
    requires a.tenantType == Some("RESTAURANT")
    requires o in BuildSidebar(a)
    ensures o.key != "EDUCATION" && o.key != "HEALTHCARE"
  {
    RestaurantRefused();
    RootKeysNameDomains();
    RefusedDomainRootsHidden(SidebarTree, a, o, "EDUCATION");
    RefusedDomainRootsHidden(SidebarTree, a, o, "HEALTHCARE");
  }
}
