/**
 * The grouped sidebar builder: each permission that has a sidebar entry,
 * and whose module is enabled, adds that entry either at the root or to
 * the group its parent key names; groups that name a parent group are
 * then pushed into it; every level is finally sorted by `order`, a
 * missing order counting as 99.
 *
 * Groups are JavaScript objects shared by reference. Here a group pushed
 * into its parent is a copy of the group at that moment; because the
 * shipped group tables are one level deep, a group that is copied never
 * changes afterwards (`NestKeepsParented`), so the copy and the shared
 * object agree.
 */
module UiSidebarBuilder {
  import opened Base
  import opened Sorting
  import opened UiTables

  /** A node of the built tree: an entry, or a group with its children. */
  datatype UiNode = Item(entry: UiEntry) | Group(def: GroupDef, children: seq<UiNode>)

  /** A group while it is being filled. */
  datatype Slot = Slot(def: GroupDef, children: seq<UiNode>)

  /** The builder's state: the root list, the groups by key, and the group keys in creation order. */
  datatype Build = Build(roots: seq<UiNode>, groups: map<string, Slot>, keys: seq<string>)

  const Dashboard: UiEntry := UiEntry("DASHBOARD", "Dashboard", "home", "/dashboard", None, NoParent, Some(0))

  const Start: Build := Build([Item(Dashboard)], map[], [])

  function NodeOf(s: Slot): UiNode {
    Group(s.def, s.children)
  }

  /** The property name JavaScript uses for a possibly undefined key. */
  function PropertyName(t: Option<string>): string {
    if t.Some? then t.value else "undefined"
  }

  /** `SIDEBAR_GROUPS_BY_TENANT[tenantType] || {}`. */
  function GroupsFor(tenantType: Option<string>): (defs: map<string, GroupDef>)
    ensures PropertyName(tenantType) !in SidebarGroupsByTenant ==> defs == map[]
  {
    var name := PropertyName(tenantType);
    if name in SidebarGroupsByTenant then SidebarGroupsByTenant[name] else map[]
  }

  function DefOf(defs: map<string, GroupDef>, k: string): GroupDef {
    if k in defs then defs[k] else NoGroup
  }

  predicate ModuleEnabled(e: UiEntry, enabled: seq<string>) {
    !Filled(e.moduleKey) || e.moduleKey.value in enabled
  }

  /** `PERMISSION_UI_MAP[perm]?.sidebar`, unless its module is set and not enabled. */
  function EntryFor(perm: string, enabled: seq<string>): (r: Option<UiEntry>)
    ensures r.Some? <==> perm in PermissionUiMap && ModuleEnabled(PermissionUiMap[perm], enabled)
    ensures r.Some? ==> r.value == PermissionUiMap[perm]
  {
    if perm in PermissionUiMap && ModuleEnabled(PermissionUiMap[perm], enabled) then Some(PermissionUiMap[perm])
    else None
  }

  /**
   * The group an entry goes into: `parentKey[tenantType]` for a per-tenant
   * parent, the key itself for a fixed one, and no group when the result
   * is missing or empty.
   */
  function ParentOf(e: UiEntry, tenantType: Option<string>): (r: Option<string>)
    ensures r.Some? ==> r.value != ""
    ensures e.parent.NoParent? ==> r.None?
    ensures e.parent.Fixed? ==> (r.Some? <==> e.parent.key != "")
    ensures e.parent.PerTenant? ==>
              (r.Some? <==> PropertyName(tenantType) in e.parent.keys && e.parent.keys[PropertyName(tenantType)] != "")
    ensures r.Some? && e.parent.PerTenant? ==> r.value == e.parent.keys[PropertyName(tenantType)]
  {
    var k := match e.parent
      case NoParent => None
      case Fixed(key) => Some(key)
      case PerTenant(keys) =>
        if PropertyName(tenantType) in keys then Some(keys[PropertyName(tenantType)]) else None;
    if k.Some? && k.value != "" then k else None
  }

  /** `getGroup(k).children.push(child)`: the group is created, empty, on first use. */
  function PushChild(c: Build, defs: map<string, GroupDef>, k: string, child: UiNode): (r: Build)
    ensures r.roots == c.roots
    ensures r.groups.Keys == c.groups.Keys + {k}
    ensures r.keys == if k in c.groups then c.keys else c.keys + [k]
    ensures forall x :: x in c.groups && x != k ==> r.groups[x] == c.groups[x]
    ensures r.groups[k] == if k in c.groups then Slot(c.groups[k].def, c.groups[k].children + [child])
                           else Slot(DefOf(defs, k), [child])
  {
    var s := if k in c.groups then c.groups[k] else Slot(DefOf(defs, k), []);
    Build(c.roots, c.groups[k := Slot(s.def, s.children + [child])], if k in c.groups then c.keys else c.keys + [k])
  }

  /** One step of the permission loop. */
  function Place(c: Build, perm: string, tenantType: Option<string>, enabled: seq<string>): Build {
    match EntryFor(perm, enabled)
    case None => c
    case Some(e) =>
      match ParentOf(e, tenantType)
      case None => c.(roots := c.roots + [Item(e)])
      case Some(k) => PushChild(c, GroupsFor(tenantType), k, Item(e))
  }

  /** The state after the permission loop. */
  function Collect(perms: seq<string>, tenantType: Option<string>, enabled: seq<string>): (r: Build)
    ensures forall k :: k in r.keys <==> k in r.groups
    decreases |perms|
  {
    if perms == [] then Start
    else Place(Collect(perms[..|perms| - 1], tenantType, enabled), perms[|perms| - 1], tenantType, enabled)
  }

  /**
   * The state after the group loop over `snapshot`, the group keys as they
   * were when the loop started; groups it creates are not visited.
   */
  function Nest(c: Build, defs: map<string, GroupDef>, snapshot: seq<string>): (r: Build)
    requires forall k :: k in snapshot ==> k in c.groups
    ensures r.roots == c.roots
    ensures c.groups.Keys <= r.groups.Keys
    ensures (forall k :: k in c.keys <==> k in c.groups) ==> (forall k :: k in r.keys <==> k in r.groups)
    decreases |snapshot|
  {
    if snapshot == [] then c
    else
      var c1 := Nest(c, defs, snapshot[..|snapshot| - 1]);
      var g := c1.groups[snapshot[|snapshot| - 1]];
      if HasParent(g.def) then PushChild(c1, defs, g.def.parentKey.value, NodeOf(g)) else c1
  }

  /** `Object.values(groups).filter((g) => !g.parentKey)`. */
  function RootGroups(groups: map<string, Slot>, keys: seq<string>): (r: seq<UiNode>)
    requires forall k :: k in keys ==> k in groups
    ensures forall x :: x in r ==> x.Group? && !HasParent(x.def)
    ensures forall x :: x in r ==> exists k :: k in keys && x == NodeOf(groups[k])
  {
    if keys == [] then []
    else
      var g := groups[keys[0]];
      (if HasParent(g.def) then [] else [NodeOf(g)]) + RootGroups(groups, keys[1..])
  }

  /** The builder state after both loops. */
  function Grouped(perms: seq<string>, tenantType: Option<string>, enabled: seq<string>): (r: Build)
    ensures forall k :: k in r.keys <==> k in r.groups
  {
    var c := Collect(perms, tenantType, enabled);
    Nest(c, GroupsFor(tenantType), c.keys)
  }

  /** `[...roots, ...rootGroups]`, before sorting. */
  function TopLevel(perms: seq<string>, tenantType: Option<string>, enabled: seq<string>): seq<UiNode> {
    var n := Grouped(perms, tenantType, enabled);
    n.roots + RootGroups(n.groups, n.keys)
  }

  /** `a.order ?? 99`. */
  function OrderOf(n: UiNode): int {
    var o := if n.Item? then n.entry.order else n.def.order;
    if o.Some? then o.value else 99
  }

  /**
   * The final `sort`: each level is sorted stably by order and its groups
   * are sorted in turn. The recursive step keeps every node's order, so
   * mapping before sorting gives the same list as sorting before mapping.
   */
  function SortNode(n: UiNode): (r: UiNode)
    ensures OrderOf(r) == OrderOf(n)
    ensures n.Item? ==> r == n
    ensures n.Group? ==> r.Group? && r.def == n.def && |r.children| == |n.children|
    decreases n, 2
  {
    match n
    case Item(_) => n
    case Group(d, ch) => Group(d, SortLevel(ch))
  }

  function SortLevel(ns: seq<UiNode>): (r: seq<UiNode>)
    ensures |r| == |ns|
    decreases ns, 1
  {
    SortBy(SortEach(ns), OrderOf, IntLe)
  }

  function SortEach(ns: seq<UiNode>): (r: seq<UiNode>)
    ensures |r| == |ns|
    ensures forall i :: 0 <= i < |ns| ==> r[i] == SortNode(ns[i])
    decreases ns, 0
  {
    if ns == [] then [] else [SortNode(ns[0])] + SortEach(ns[1..])
  }

  /** `buildSidebar({ permissions, tenantType, enabledModules })`. */
  function Sidebar(perms: seq<string>, tenantType: Option<string>, enabled: seq<string>): seq<UiNode> {
    SortLevel(TopLevel(perms, tenantType, enabled))
  }

  /** The permission loop: each entry goes to the root or into its group, created on first use. */
  method CollectEntries(permissions: seq<string>, tenantType: Option<string>, enabledModules: seq<string>)
    returns (roots: seq<UiNode>, groups: map<string, Slot>, keys: seq<string>)
    ensures Build(roots, groups, keys) == Collect(permissions, tenantType, enabledModules)
  {
    var defs := GroupsFor(tenantType);
    roots, groups, keys := [Item(Dashboard)], map[], [];
    for i := 0 to |permissions|
      invariant Build(roots, groups, keys) == Collect(permissions[..i], tenantType, enabledModules)
    {
      ghost var before := Build(roots, groups, keys);
      assert permissions[..i + 1][..i] == permissions[..i];
      var cfg := EntryFor(permissions[i], enabledModules);
      if cfg.Some? {
        var parentKey := ParentOf(cfg.value, tenantType);
        if parentKey.Some? {
          groups, keys := AppendChild(groups, keys, defs, parentKey.value, Item(cfg.value));
          assert Build(roots, groups, keys) == PushChild(before, defs, parentKey.value, Item(cfg.value));
        } else {
          roots := roots + [Item(cfg.value)];
        }
      }
    }
    assert permissions[..|permissions|] == permissions;
  }

  /** `getGroup(k).children.push(child)` on the builder's group table. */
  method AppendChild(groups: map<string, Slot>, keys: seq<string>, defs: map<string, GroupDef>, k: string, child: UiNode)
    returns (groups': map<string, Slot>, keys': seq<string>)
    ensures Build([], groups', keys') == PushChild(Build([], groups, keys), defs, k, child)
  {
    groups', keys' := groups, keys;
    if k !in groups' {
      groups' := groups'[k := Slot(DefOf(defs, k), [])];
      keys' := keys' + [k];
    }
    groups' := groups'[k := Slot(groups'[k].def, groups'[k].children + [child])];
  }

  /** The group loop over the groups that existed when it started. */
  method NestGroups(c: Build, defs: map<string, GroupDef>) returns (n: Build)
    requires forall k :: k in c.keys ==> k in c.groups
    ensures n == Nest(c, defs, c.keys)
  {
    var groups, keys := c.groups, c.keys;
    var snapshot := c.keys;
    for j := 0 to |snapshot|
      invariant Build(c.roots, groups, keys) == Nest(c, defs, snapshot[..j])
    {
      assert snapshot[..j + 1][..j] == snapshot[..j];
      var g := groups[snapshot[j]];
      if HasParent(g.def) {
        ghost var before := Build(c.roots, groups, keys);
        groups, keys := AppendChild(groups, keys, defs, g.def.parentKey.value, NodeOf(g));
        assert Build(c.roots, groups, keys) == PushChild(before, defs, g.def.parentKey.value, NodeOf(g));
      }
    }
    assert snapshot[..|snapshot|] == snapshot;
    n := Build(c.roots, groups, keys);
  }

  /**
   * The builder, step by step: the permission loop fills the roots and the
   * groups, the group loop nests groups that name a parent, and the result
   * is sorted.
   */
  method BuildSidebar(permissions: seq<string>, tenantType: Option<string>, enabledModules: seq<string>)
    returns (tree: seq<UiNode>)
    ensures tree == Sidebar(permissions, tenantType, enabledModules)
  {
    var roots, groups, keys := CollectEntries(permissions, tenantType, enabledModules);
    var n := NestGroups(Build(roots, groups, keys), GroupsFor(tenantType));
    tree := SortLevel(n.roots + RootGroups(n.groups, n.keys));
  }

  // ------------------------------------------------------------------
  // What the permission loop collects
  // ------------------------------------------------------------------

  /** Whether some permission contributes `e`, attached to `parent`. */
  predicate Contributes(perms: seq<string>, tenantType: Option<string>, enabled: seq<string>,
                        e: UiEntry, parent: Option<string>) {
    exists i :: 0 <= i < |perms| && Yields(perms[i], tenantType, enabled, e, parent)
  }

  /** Whether `perm` contributes `e`, attached to `parent`. */
  predicate Yields(perm: string, tenantType: Option<string>, enabled: seq<string>, e: UiEntry, parent: Option<string>) {
    EntryFor(perm, enabled) == Some(e) && ParentOf(e, tenantType) == parent
  }

  lemma ContributesSnoc(perms: seq<string>, tenantType: Option<string>, enabled: seq<string>,
                        e: UiEntry, parent: Option<string>)
    requires perms != []
    ensures var last := perms[|perms| - 1];
            Contributes(perms, tenantType, enabled, e, parent) <==>
              Contributes(perms[..|perms| - 1], tenantType, enabled, e, parent) ||
              Yields(last, tenantType, enabled, e, parent)
  {
    var init := perms[..|perms| - 1];
    if Contributes(perms, tenantType, enabled, e, parent) {
      var i :| 0 <= i < |perms| && Yields(perms[i], tenantType, enabled, e, parent);
      if i < |init| {
        assert init[i] == perms[i];
      }
    }
    if Contributes(init, tenantType, enabled, e, parent) {
      var i :| 0 <= i < |init| && Yields(init[i], tenantType, enabled, e, parent);
      assert perms[i] == init[i];
    }
  }

  /** The roots after the permission loop: the dashboard and every contributed entry without a group. */
  lemma {:induction false} CollectRoots(perms: seq<string>, tenantType: Option<string>, enabled: seq<string>)
    ensures var c := Collect(perms, tenantType, enabled);
            (forall x :: x in c.roots ==> x.Item?) &&
            (forall e :: Item(e) in c.roots <==> e == Dashboard || Contributes(perms, tenantType, enabled, e, None))
    decreases |perms|
  {
    if perms != [] {
      var init := perms[..|perms| - 1];
      CollectRoots(init, tenantType, enabled);
      forall e
        ensures Contributes(perms, tenantType, enabled, e, None) <==>
                  Contributes(init, tenantType, enabled, e, None) ||
                  (EntryFor(perms[|perms| - 1], enabled) == Some(e) && ParentOf(e, tenantType).None?)
      {
        ContributesSnoc(perms, tenantType, enabled, e, None);
      }
    }
  }

  /** Whether some contributed entry is attached to the group `k`. */
  ghost predicate HasGroup(perms: seq<string>, tenantType: Option<string>, enabled: seq<string>, k: string) {
    exists e :: Contributes(perms, tenantType, enabled, e, Some(k))
  }

  /** One step of the permission loop touches at most the group its entry resolves to. */
  lemma PlaceGroups(c: Build, perm: string, tenantType: Option<string>, enabled: seq<string>)
    ensures var r := Place(c, perm, tenantType, enabled);
            var cfg := EntryFor(perm, enabled);
            (forall k :: k in r.groups <==>
               k in c.groups || (cfg.Some? && ParentOf(cfg.value, tenantType) == Some(k))) &&
            (forall k :: k in r.groups ==>
               forall x :: x in r.groups[k].children <==>
                 (k in c.groups && x in c.groups[k].children) ||
                 (cfg.Some? && ParentOf(cfg.value, tenantType) == Some(k) && x == Item(cfg.value)))
  {
    var cfg := EntryFor(perm, enabled);
    if cfg.Some? && ParentOf(cfg.value, tenantType).Some? {
      var p := ParentOf(cfg.value, tenantType).value;
      var r := PushChild(c, GroupsFor(tenantType), p, Item(cfg.value));
      assert Place(c, perm, tenantType, enabled) == r;
      forall k | k in r.groups && k != p
        ensures r.groups[k] == c.groups[k]
      {
      }
    }
  }

  /** Every group holds entries only. */
  ghost predicate EntriesOnly(c: Build) {
    forall k, x :: k in c.groups && x in c.groups[k].children ==> x.Item?
  }

  /** After the permission loop every group holds entries only. */
  lemma {:induction false} CollectHoldsEntries(perms: seq<string>, tenantType: Option<string>, enabled: seq<string>)
    ensures EntriesOnly(Collect(perms, tenantType, enabled))
    decreases |perms|
  {
    if perms != [] {
      var init := perms[..|perms| - 1];
      var c := Collect(init, tenantType, enabled);
      CollectHoldsEntries(init, tenantType, enabled);
      PlaceGroups(c, perms[|perms| - 1], tenantType, enabled);
      var r := Collect(perms, tenantType, enabled);
      assert r == Place(c, perms[|perms| - 1], tenantType, enabled);
      forall k, x | k in r.groups && x in r.groups[k].children
        ensures x.Item?
      {
        var cfg := EntryFor(perms[|perms| - 1], enabled);
        if k in c.groups && x in c.groups[k].children {
          assert x.Item?;
        } else {
          assert x == Item(cfg.value);
        }
      }
    }
  }

  /** A group exists exactly for the keys some contributed entry is attached to. */
  lemma {:induction false} CollectGroupKeys(perms: seq<string>, tenantType: Option<string>, enabled: seq<string>)
    ensures var c := Collect(perms, tenantType, enabled);
            forall k :: k in c.groups <==> HasGroup(perms, tenantType, enabled, k)
    decreases |perms|
  {
    if perms != [] {
      var init := perms[..|perms| - 1];
      var cfg := EntryFor(perms[|perms| - 1], enabled);
      CollectGroupKeys(init, tenantType, enabled);
      PlaceGroups(Collect(init, tenantType, enabled), perms[|perms| - 1], tenantType, enabled);
      forall k
        ensures HasGroup(perms, tenantType, enabled, k) <==>
                  HasGroup(init, tenantType, enabled, k) || (cfg.Some? && ParentOf(cfg.value, tenantType) == Some(k))
      {
        forall e
          ensures Contributes(perms, tenantType, enabled, e, Some(k)) <==>
                    Contributes(init, tenantType, enabled, e, Some(k)) ||
                    (cfg == Some(e) && ParentOf(e, tenantType) == Some(k))
        {
          ContributesSnoc(perms, tenantType, enabled, e, Some(k));
        }
        if cfg.Some? && ParentOf(cfg.value, tenantType) == Some(k) {
          assert Contributes(perms, tenantType, enabled, cfg.value, Some(k));
        }
      }
    }
  }

  /** Each group holds exactly the contributed entries attached to its key. */
  lemma {:induction false} CollectGroupEntries(perms: seq<string>, tenantType: Option<string>, enabled: seq<string>)
    ensures var c := Collect(perms, tenantType, enabled);
            forall k, e :: k in c.groups ==>
              (Item(e) in c.groups[k].children <==> Contributes(perms, tenantType, enabled, e, Some(k)))
    decreases |perms|
  {
    if perms != [] {
      var init := perms[..|perms| - 1];
      CollectGroupEntries(init, tenantType, enabled);
      CollectGroupKeys(init, tenantType, enabled);
      var c := Collect(init, tenantType, enabled);
      PlaceGroups(c, perms[|perms| - 1], tenantType, enabled);
      forall k, e | k in Collect(perms, tenantType, enabled).groups
        ensures Item(e) in Collect(perms, tenantType, enabled).groups[k].children <==>
                  Contributes(perms, tenantType, enabled, e, Some(k))
      {
        ContributesSnoc(perms, tenantType, enabled, e, Some(k));
        if k !in c.groups {
          assert !HasGroup(init, tenantType, enabled, k);
        }
      }
    }
  }

  lemma CollectGroups(perms: seq<string>, tenantType: Option<string>, enabled: seq<string>)
    ensures var c := Collect(perms, tenantType, enabled);
            EntriesOnly(c) &&
            (forall k, e :: k in c.groups ==>
               (Item(e) in c.groups[k].children <==> Contributes(perms, tenantType, enabled, e, Some(k)))) &&
            (forall k :: k in c.groups <==> HasGroup(perms, tenantType, enabled, k))
  {
    CollectHoldsEntries(perms, tenantType, enabled);
    CollectGroupKeys(perms, tenantType, enabled);
    CollectGroupEntries(perms, tenantType, enabled);
  }

  ghost predicate SlotDefs(c: Build, defs: map<string, GroupDef>) {
    forall k :: k in c.groups ==> c.groups[k].def == DefOf(defs, k)
  }

  /** A group, at any depth, has at least one child. */
  ghost predicate NonEmpty(n: UiNode)
    decreases n
  {
    n.Group? ==> |n.children| > 0 && forall x :: x in n.children ==> NonEmpty(x)
  }

  ghost predicate SlotsNonEmpty(c: Build) {
    forall k :: k in c.groups ==>
      |c.groups[k].children| > 0 && forall x :: x in c.groups[k].children ==> NonEmpty(x)
  }

  lemma PushChildSlots(c: Build, defs: map<string, GroupDef>, k: string, child: UiNode)
    requires SlotDefs(c, defs) && SlotsNonEmpty(c) && NonEmpty(child)
    ensures SlotDefs(PushChild(c, defs, k, child), defs) && SlotsNonEmpty(PushChild(c, defs, k, child))
  {
  }

  /** Groups are created only to receive a child, and take their definition from the tenant's table. */
  lemma {:induction false} CollectSlots(perms: seq<string>, tenantType: Option<string>, enabled: seq<string>)
    ensures SlotDefs(Collect(perms, tenantType, enabled), GroupsFor(tenantType))
    ensures SlotsNonEmpty(Collect(perms, tenantType, enabled))
    decreases |perms|
  {
    if perms != [] {
      var init := perms[..|perms| - 1];
      CollectSlots(init, tenantType, enabled);
      var c := Collect(init, tenantType, enabled);
      var e := EntryFor(perms[|perms| - 1], enabled);
      if e.Some? && ParentOf(e.value, tenantType).Some? {
        PushChildSlots(c, GroupsFor(tenantType), ParentOf(e.value, tenantType).value, Item(e.value));
      }
    }
  }

  // ------------------------------------------------------------------
  // What the group loop does
  // ------------------------------------------------------------------

  /** What the group loop may assume about the state the permission loop leaves. */
  ghost predicate Collected(c: Build, defs: map<string, GroupDef>) {
    (forall k :: k in c.keys <==> k in c.groups) &&
    SlotDefs(c, defs) && SlotsNonEmpty(c) && Shallow(defs) && EntriesOnly(c)
  }

  lemma {:induction false} NestSlots(c: Build, defs: map<string, GroupDef>, s: seq<string>)
    requires Collected(c, defs)
    requires forall k :: k in s ==> k in c.groups
    ensures SlotDefs(Nest(c, defs, s), defs) && SlotsNonEmpty(Nest(c, defs, s))
    decreases |s|
  {
    if s != [] {
      var init := s[..|s| - 1];
      NestSlots(c, defs, init);
      var c1 := Nest(c, defs, init);
      var g := c1.groups[s[|s| - 1]];
      if HasParent(g.def) {
        PushChildSlots(c1, defs, g.def.parentKey.value, NodeOf(g));
      }
    }
  }

  /**
   * Groups that name a parent are never pushed into, since their parent has
   * no parent of its own: the group loop leaves them as it found them.
   */
  lemma {:induction false} NestKeepsParented(c: Build, defs: map<string, GroupDef>, s: seq<string>)
    requires Collected(c, defs)
    requires forall k :: k in s ==> k in c.groups
    ensures var r := Nest(c, defs, s);
            forall k :: k in r.groups && HasParent(r.groups[k].def) ==> k in c.groups && r.groups[k] == c.groups[k]
    decreases |s|
  {
    if s != [] {
      var init := s[..|s| - 1];
      NestKeepsParented(c, defs, init);
      NestSlots(c, defs, init);
      var c1 := Nest(c, defs, init);
      var g := c1.groups[s[|s| - 1]];
      if HasParent(g.def) {
        var p := g.def.parentKey.value;
        assert s[|s| - 1] in defs;
        assert p in defs && !HasParent(defs[p]);
        if p in c1.groups {
          assert !HasParent(c1.groups[p].def);
        }
      }
    }
  }

  /** The group loop adds only groups: entries stay where the permission loop put them. */
  lemma {:induction false} NestItems(c: Build, defs: map<string, GroupDef>, s: seq<string>)
    requires Collected(c, defs)
    requires forall k :: k in s ==> k in c.groups
    ensures forall k, x :: k in Nest(c, defs, s).groups && x in Nest(c, defs, s).groups[k].children && x.Item? ==>
                           k in c.groups && x in c.groups[k].children
    ensures forall k, x :: k in c.groups && x in c.groups[k].children ==> x in Nest(c, defs, s).groups[k].children
    decreases |s|
  {
    if s != [] {
      NestItems(c, defs, s[..|s| - 1]);
    }
  }

  /** Each visited group that names a parent ends up among that parent's children. */
  lemma {:induction false} NestPlacesGroups(c: Build, defs: map<string, GroupDef>, s: seq<string>)
    requires Collected(c, defs)
    requires forall k :: k in s ==> k in c.groups
    ensures var r := Nest(c, defs, s);
            forall k :: k in s && HasParent(c.groups[k].def) ==>
              c.groups[k].def.parentKey.value in r.groups &&
              NodeOf(c.groups[k]) in r.groups[c.groups[k].def.parentKey.value].children
    decreases |s|
  {
    if s != [] {
      var init := s[..|s| - 1];
      NestPlacesGroups(c, defs, init);
      NestKeepsParented(c, defs, init);
      var c1 := Nest(c, defs, init);
      var last := s[|s| - 1];
      if HasParent(c.groups[last].def) {
        assert c1.groups[last].def == c.groups[last].def by {
          NestSlots(c, defs, init);
        }
        assert c1.groups[last] == c.groups[last];
      }
      forall k | k in s && HasParent(c.groups[k].def)
        ensures c.groups[k].def.parentKey.value in Nest(c, defs, s).groups
        ensures NodeOf(c.groups[k]) in Nest(c, defs, s).groups[c.groups[k].def.parentKey.value].children
      {
        if k != last {
          assert k in init;
        }
      }
    }
  }

  /** The group tables of every tenant type, and the empty table, are one level deep. */
  lemma GroupTablesShallow(tenantType: Option<string>)
    ensures Shallow(GroupsFor(tenantType))
  {
    var name := PropertyName(tenantType);
    if name in SidebarGroupsByTenant {
      assert name == "SCHOOL" || name == "COMPANY" || name == "RESTAURANT";
      if name == "SCHOOL" {
        TableShallow(name, {"ADMIN", "ACADEMICS", "SECURITY"});
      } else if name == "COMPANY" {
        TableShallow(name, {"ADMIN", "HR", "SECURITY"});
      } else {
        TableShallow(name, {"ORDERS", "MENU", "CUSTOMERS", "PAYMENTS", "REPORTS", "SETTINGS", "SECURITY"});
      }
    }
  }

  /** One tenant type's table, whose keys are `ks`, is one level deep. */
  lemma TableShallow(name: string, ks: set<string>)
    requires name in SidebarGroupsByTenant && SidebarGroupsByTenant[name].Keys == ks
    requires forall k :: k in ks && HasParent(SidebarGroupsByTenant[name][k]) ==>
               SidebarGroupsByTenant[name][k].parentKey.value in ks &&
               !HasParent(SidebarGroupsByTenant[name][SidebarGroupsByTenant[name][k].parentKey.value])
    ensures Shallow(SidebarGroupsByTenant[name])
  {
  }

  lemma CollectedBeforeNest(perms: seq<string>, tenantType: Option<string>, enabled: seq<string>)
    ensures Collected(Collect(perms, tenantType, enabled), GroupsFor(tenantType))
  {
    CollectSlots(perms, tenantType, enabled);
    CollectGroups(perms, tenantType, enabled);
    GroupTablesShallow(tenantType);
  }

  /** After both loops, each group holds exactly the entries attached to its key. */
  lemma GroupEntries(perms: seq<string>, tenantType: Option<string>, enabled: seq<string>, k: string, e: UiEntry)
    requires k in Grouped(perms, tenantType, enabled).groups
    ensures Item(e) in Grouped(perms, tenantType, enabled).groups[k].children <==>
              Contributes(perms, tenantType, enabled, e, Some(k))
  {
    var c := Collect(perms, tenantType, enabled);
    var defs := GroupsFor(tenantType);
    CollectedBeforeNest(perms, tenantType, enabled);
    NestEntry(c, defs, k, e);
    CollectGroupKeys(perms, tenantType, enabled);
    CollectGroupEntries(perms, tenantType, enabled);
    if Contributes(perms, tenantType, enabled, e, Some(k)) {
      assert HasGroup(perms, tenantType, enabled, k);
    }
  }

  /** An entry is in a group after the group loop exactly when it was there before. */
  lemma NestEntry(c: Build, defs: map<string, GroupDef>, k: string, e: UiEntry)
    requires Collected(c, defs)
    requires k in Nest(c, defs, c.keys).groups
    ensures Item(e) in Nest(c, defs, c.keys).groups[k].children <==> k in c.groups && Item(e) in c.groups[k].children
  {
    NestItems(c, defs, c.keys);
    var n := Nest(c, defs, c.keys);
    if Item(e) in n.groups[k].children {
      assert Item(e).Item?;
      assert k in c.groups && Item(e) in c.groups[k].children;
    }
  }

  /**
   * After both loops, a group that names a parent sits, as it is, among the
   * children of that parent, which itself names none.
   */
  lemma GroupNesting(perms: seq<string>, tenantType: Option<string>, enabled: seq<string>, k: string)
    requires var n := Grouped(perms, tenantType, enabled);
             k in n.groups && HasParent(n.groups[k].def)
    ensures var n := Grouped(perms, tenantType, enabled);
            var p := n.groups[k].def.parentKey.value;
            p in n.groups && !HasParent(n.groups[p].def) && NodeOf(n.groups[k]) in n.groups[p].children
  {
    var c := Collect(perms, tenantType, enabled);
    var defs := GroupsFor(tenantType);
    CollectedBeforeNest(perms, tenantType, enabled);
    NestKeepsParented(c, defs, c.keys);
    NestPlacesGroups(c, defs, c.keys);
    NestSlots(c, defs, c.keys);
    var n := Nest(c, defs, c.keys);
    assert n == Grouped(perms, tenantType, enabled);
    assert k in c.groups && n.groups[k] == c.groups[k];
    assert k in c.keys;
    var p := n.groups[k].def.parentKey.value;
    assert k in defs && n.groups[k].def == defs[k];
    assert p in n.groups && NodeOf(c.groups[k]) in n.groups[p].children;
    assert n.groups[p].def == DefOf(defs, p);
  }

  // ------------------------------------------------------------------
  // The sorted tree
  // ------------------------------------------------------------------

  lemma SortLevelMembers(ns: seq<UiNode>)
    ensures forall x :: x in SortLevel(ns) <==> exists i :: 0 <= i < |ns| && x == SortNode(ns[i])
  {
    SortByMembers(SortEach(ns), OrderOf, IntLe);
    var m := SortEach(ns);
    forall x | x in m
      ensures exists i :: 0 <= i < |ns| && x == SortNode(ns[i])
    {
      var i :| 0 <= i < |m| && m[i] == x;
      assert x == SortNode(ns[i]);
    }
    forall i | 0 <= i < |ns|
      ensures SortNode(ns[i]) in m
    {
      assert m[i] == SortNode(ns[i]);
    }
  }

  lemma {:induction false} SortNodeNonEmpty(n: UiNode)
    requires NonEmpty(n)
    ensures NonEmpty(SortNode(n))
    decreases n, 1
  {
    if n.Group? {
      SortLevelNonEmpty(n.children);
    }
  }

  lemma {:induction false} SortLevelNonEmpty(ns: seq<UiNode>)
    requires forall x :: x in ns ==> NonEmpty(x)
    ensures forall x :: x in SortLevel(ns) ==> NonEmpty(x)
    decreases ns, 0
  {
    SortLevelMembers(ns);
    forall i | 0 <= i < |ns|
      ensures NonEmpty(SortNode(ns[i]))
    {
      SortNodeNonEmpty(ns[i]);
    }
  }

  /** A group's children, at every depth, are sorted by order. */
  ghost predicate SortedTree(n: UiNode)
    decreases n
  {
    n.Group? ==> SortedBy(n.children, OrderOf, IntLe) && forall x :: x in n.children ==> SortedTree(x)
  }

  lemma {:induction false} SortNodeSorted(n: UiNode)
    ensures SortedTree(SortNode(n))
    decreases n, 1
  {
    if n.Group? {
      SortLevelSorted(n.children);
    }
  }

  lemma {:induction false} SortLevelSorted(ns: seq<UiNode>)
    ensures SortedBy(SortLevel(ns), OrderOf, IntLe)
    ensures forall x :: x in SortLevel(ns) ==> SortedTree(x)
    decreases ns, 0
  {
    IntLeIsTotalOrder();
    SortBySorted(SortEach(ns), OrderOf, IntLe);
    SortLevelMembers(ns);
    forall i | 0 <= i < |ns|
      ensures SortedTree(SortNode(ns[i]))
    {
      SortNodeSorted(ns[i]);
    }
  }

  // ------------------------------------------------------------------
  // Properties of the built sidebar
  // ------------------------------------------------------------------

  lemma TopLevelShape(perms: seq<string>, tenantType: Option<string>, enabled: seq<string>)
    ensures var top := TopLevel(perms, tenantType, enabled);
            (forall e :: Item(e) in top <==> e == Dashboard || Contributes(perms, tenantType, enabled, e, None)) &&
            (forall x :: x in top && x.Group? ==> !HasParent(x.def)) &&
            (forall x :: x in top ==> NonEmpty(x))
  {
    var c := Collect(perms, tenantType, enabled);
    var defs := GroupsFor(tenantType);
    CollectRoots(perms, tenantType, enabled);
    CollectedBeforeNest(perms, tenantType, enabled);
    NestSlots(c, defs, c.keys);
    var n := Nest(c, defs, c.keys);
    var rg := RootGroups(n.groups, n.keys);
    assert TopLevel(perms, tenantType, enabled) == n.roots + rg;
    forall x | x in rg
      ensures NonEmpty(x)
    {
      var k :| k in n.keys && x == NodeOf(n.groups[k]);
    }
  }

  /** The dashboard is always at the root, whatever the permissions, tenant type and modules. */
  lemma DashboardAlwaysShown(perms: seq<string>, tenantType: Option<string>, enabled: seq<string>)
    ensures Item(Dashboard) in Sidebar(perms, tenantType, enabled)
  {
    TopLevelShape(perms, tenantType, enabled);
    var top := TopLevel(perms, tenantType, enabled);
    SortLevelMembers(top);
    var i :| 0 <= i < |top| && top[i] == Item(Dashboard);
    assert SortNode(top[i]) == Item(Dashboard);
  }

  /**
   * The entries at the root are the dashboard and exactly the contributed
   * entries that resolve to no group; unknown permissions and entries of
   * disabled modules contribute nothing.
   */
  lemma RootEntries(perms: seq<string>, tenantType: Option<string>, enabled: seq<string>, e: UiEntry)
    ensures Item(e) in Sidebar(perms, tenantType, enabled) <==>
              e == Dashboard || Contributes(perms, tenantType, enabled, e, None)
  {
    TopLevelShape(perms, tenantType, enabled);
    var top := TopLevel(perms, tenantType, enabled);
    SortLevelMembers(top);
    if Item(e) in top {
      var i :| 0 <= i < |top| && top[i] == Item(e);
      assert SortNode(top[i]) == Item(e);
    }
  }

  /** A group at the root names no parent, and every group at every depth has a child. */
  lemma RootGroupsAreTopLevel(perms: seq<string>, tenantType: Option<string>, enabled: seq<string>)
    ensures forall x :: x in Sidebar(perms, tenantType, enabled) && x.Group? ==> !HasParent(x.def)
    ensures forall x :: x in Sidebar(perms, tenantType, enabled) ==> NonEmpty(x)
  {
    TopLevelShape(perms, tenantType, enabled);
    var top := TopLevel(perms, tenantType, enabled);
    SortLevelMembers(top);
    SortLevelNonEmpty(top);
  }

  /**
   * Every level is sorted by order, and the root level is a stable
   * rearrangement: nothing is lost or added, and nodes of equal order keep
   * their relative position.
   */
  lemma SortedAtEveryLevel(perms: seq<string>, tenantType: Option<string>, enabled: seq<string>)
    ensures var top := TopLevel(perms, tenantType, enabled);
            var out := Sidebar(perms, tenantType, enabled);
            SortedBy(out, OrderOf, IntLe) && (forall x :: x in out ==> SortedTree(x)) &&
            multiset(out) == multiset(SortEach(top)) &&
            forall o :: WithKey(out, OrderOf, o) == WithKey(SortEach(top), OrderOf, o)
  {
    var top := TopLevel(perms, tenantType, enabled);
    SortLevelSorted(top);
    SortByPermutes(SortEach(top), OrderOf, IntLe);
    IntLeIsTotalOrder();
    forall o
      ensures WithKey(Sidebar(perms, tenantType, enabled), OrderOf, o) == WithKey(SortEach(top), OrderOf, o)
    {
      SortByStable(SortEach(top), OrderOf, IntLe, o);
    }
  }

  /** A permission without a sidebar entry leaves the result as it was. */
  lemma UnknownPermissionIgnored(perms: seq<string>, perm: string, tenantType: Option<string>, enabled: seq<string>)
    requires perm !in PermissionUiMap
    ensures Sidebar(perms + [perm], tenantType, enabled) == Sidebar(perms, tenantType, enabled)
  {
    assert (perms + [perm])[..|perms|] == perms;
    assert Collect(perms + [perm], tenantType, enabled) == Collect(perms, tenantType, enabled);
  }

  /** So does a permission whose entry belongs to a module that is not enabled. */
  lemma DisabledModuleIgnored(perms: seq<string>, perm: string, tenantType: Option<string>, enabled: seq<string>)
    requires perm in PermissionUiMap && Filled(PermissionUiMap[perm].moduleKey)
    requires PermissionUiMap[perm].moduleKey.value !in enabled
    ensures Sidebar(perms + [perm], tenantType, enabled) == Sidebar(perms, tenantType, enabled)
  {
    assert (perms + [perm])[..|perms|] == perms;
    assert Collect(perms + [perm], tenantType, enabled) == Collect(perms, tenantType, enabled);
  }

  /** For a restaurant, the students entry has no group and so would be shown at the root. */
  lemma StudentsAtRootForRestaurant()
    ensures ParentOf(PermissionUiMap["student.view"], Some("RESTAURANT")).None?
    ensures ParentOf(PermissionUiMap["student.view"], Some("SCHOOL")) == Some("ADMIN")
    ensures ParentOf(PermissionUiMap["student.view"], Some("COMPANY")) == Some("HR")
  {
  }
}
