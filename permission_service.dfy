/**
 * The permission catalog service: bulk creation that skips keys already
 * present, deletion guarded by role links, and the grouping of the
 * catalog by domain for the role editor.
 */
module PermissionService {
  import opened Base
  import opened Schema
  import opened Db

  // ------------------------------------------------------------------
  // getGroupedPermissions
  // ------------------------------------------------------------------

  /** A catalog row as `findMany` returns it. */
  datatype PermissionRow = PermissionRow(id: Id, entry: Permission)

  datatype PermissionItem = PermissionItem(id: Id, key: string, action: string)

  datatype PermissionGroup = PermissionGroup(title: string, moduleKey: Option<string>, permissions: seq<PermissionItem>)

  function ItemOf(p: PermissionRow): PermissionItem {
    PermissionItem(p.id, p.entry.key, p.entry.action)
  }

  /** The domains of `ps` in the order they first occur, each once. */
  function Domains(ps: seq<PermissionRow>): (ds: seq<string>)
    ensures forall d :: d in ds <==> exists i :: 0 <= i < |ps| && ps[i].entry.domain == d
    ensures forall i, j :: 0 <= i < j < |ds| ==> ds[i] != ds[j]
  {
    if ps == [] then []
    else
      var ds := Domains(ps[..|ps| - 1]);
      var d := ps[|ps| - 1].entry.domain;
      assert forall i :: 0 <= i < |ps| - 1 ==> ps[..|ps| - 1][i] == ps[i];
      if d in ds then ds else ds + [d]
  }

  /** The `groups` object after the loop has seen `ps`: keyed by domain. */
  function GroupsAfter(ps: seq<PermissionRow>): map<string, PermissionGroup> {
    if ps == [] then map[]
    else
      var g := GroupsAfter(ps[..|ps| - 1]);
      var p := ps[|ps| - 1];
      var base := if p.entry.domain in g then g[p.entry.domain]
                  else PermissionGroup(p.entry.domain, p.entry.moduleKey, []);
      g[p.entry.domain := base.(permissions := base.permissions + [ItemOf(p)])]
  }

  /** `Object.values(groups)`: the groups in the order their domains were first seen. */
  function Grouped(ps: seq<PermissionRow>): (r: seq<PermissionGroup>)
    ensures |r| == |Domains(ps)|
  {
    GroupsKeys(ps);
    var ds := Domains(ps);
    var g := GroupsAfter(ps);
    seq(|ds|, i requires 0 <= i < |ds| => g[ds[i]])
  }

  /** The items of the permissions of domain `d`, in input order. */
  function ItemsIn(ps: seq<PermissionRow>, d: string): (r: seq<PermissionItem>)
    ensures |r| <= |ps|
  {
    if ps == [] then []
    else ItemsIn(ps[..|ps| - 1], d) + (if ps[|ps| - 1].entry.domain == d then [ItemOf(ps[|ps| - 1])] else [])
  }

  /** The module key of the first permission of domain `d`. */
  function FirstModuleKey(ps: seq<PermissionRow>, d: string): Option<string> {
    if ps == [] then None
    else if d in Domains(ps[..|ps| - 1]) then FirstModuleKey(ps[..|ps| - 1], d)
    else if ps[|ps| - 1].entry.domain == d then ps[|ps| - 1].entry.moduleKey
    else None
  }

  /** The keys of `groups` are the domains seen. */
  lemma {:induction false} GroupsKeys(ps: seq<PermissionRow>)
    ensures GroupsAfter(ps).Keys == set d | d in Domains(ps)
  {
    if ps != [] {
      GroupsKeys(ps[..|ps| - 1]);
    }
  }

  /**
   * The group of each domain is labelled with it, carries the module key of
   * the first permission seen in it, and lists that domain's permissions in
   * input order.
   */
  lemma {:induction false} GroupOfDomain(ps: seq<PermissionRow>, d: string)
    requires d in Domains(ps)
    ensures d in GroupsAfter(ps)
    ensures GroupsAfter(ps)[d] == PermissionGroup(d, FirstModuleKey(ps, d), ItemsIn(ps, d))
  {
    GroupsKeys(ps);
    var q := ps[..|ps| - 1];
    var p := ps[|ps| - 1];
    GroupsKeys(q);
    if d in Domains(q) {
      GroupOfDomain(q, d);
    } else {
      assert p.entry.domain == d;
      NoItemsOutside(q, d);
    }
  }

  lemma {:induction false} NoItemsOutside(ps: seq<PermissionRow>, d: string)
    requires d !in Domains(ps)
    ensures ItemsIn(ps, d) == []
  {
    if ps != [] {
      var q := ps[..|ps| - 1];
      assert forall i :: 0 <= i < |q| ==> q[i] == ps[i];
      NoItemsOutside(q, d);
    }
  }

  function SizeSum(gs: seq<PermissionGroup>): nat {
    if gs == [] then 0 else SizeSum(gs[..|gs| - 1]) + |gs[|gs| - 1].permissions|
  }

  /** The number of items of the domains `ds`. */
  function ItemCount(ds: seq<string>, ps: seq<PermissionRow>): nat {
    if ds == [] then 0 else ItemCount(ds[..|ds| - 1], ps) + |ItemsIn(ps, ds[|ds| - 1])|
  }

  /** One more permission adds one item to the count of any list of distinct domains that holds its domain. */
  lemma {:induction false} ItemCountStep(ds: seq<string>, ps: seq<PermissionRow>)
    requires ps != []
    requires forall i, j :: 0 <= i < j < |ds| ==> ds[i] != ds[j]
    ensures ItemCount(ds, ps) == ItemCount(ds, ps[..|ps| - 1]) + (if ps[|ps| - 1].entry.domain in ds then 1 else 0)
  {
    if ds != [] {
      var e := ds[|ds| - 1];
      var rest := ds[..|ds| - 1];
      ItemCountStep(rest, ps);
      assert ds == rest + [e];
      assert e in rest ==> false;
    }
  }

  /** A domain without items adds nothing to the count. */
  lemma ItemCountSkip(ds: seq<string>, d: string, ps: seq<PermissionRow>)
    requires ItemsIn(ps, d) == []
    ensures ItemCount(ds + [d], ps) == ItemCount(ds, ps)
  {
    assert (ds + [d])[..|ds|] == ds;
  }

  /** Every permission is an item of exactly one domain. */
  lemma {:induction false} EveryPermissionCounted(ps: seq<PermissionRow>)
    ensures ItemCount(Domains(ps), ps) == |ps|
  {
    if ps != [] {
      var q := ps[..|ps| - 1];
      var d := ps[|ps| - 1].entry.domain;
      EveryPermissionCounted(q);
      ItemCountStep(Domains(ps), ps);
      if d !in Domains(q) {
        NoItemsOutside(q, d);
        ItemCountSkip(Domains(q), d, q);
      }
    }
  }

  /** The first `n` groups hold the items of the first `n` domains. */
  lemma {:induction false} SizeSumPrefix(ps: seq<PermissionRow>, n: nat)
    requires n <= |Domains(ps)|
    ensures SizeSum(Grouped(ps)[..n]) == ItemCount(Domains(ps)[..n], ps)
  {
    if n > 0 {
      SizeSumPrefix(ps, n - 1);
      var ds := Domains(ps);
      assert Grouped(ps)[..n][..n - 1] == Grouped(ps)[..n - 1];
      assert ds[..n][..n - 1] == ds[..n - 1];
      GroupsKeys(ps);
      GroupOfDomain(ps, ds[n - 1]);
    }
  }

  /** Every permission lands in exactly one group: the group sizes add up to the number of permissions. */
  lemma EveryPermissionOnce(ps: seq<PermissionRow>)
    ensures SizeSum(Grouped(ps)) == |ps|
  {
    SizeSumPrefix(ps, |Domains(ps)|);
    assert Grouped(ps)[..|Domains(ps)|] == Grouped(ps);
    assert Domains(ps)[..|Domains(ps)|] == Domains(ps);
    EveryPermissionCounted(ps);
  }

  /**
   * The loop of the handler: for each permission, create its domain's
   * group if absent, then append the permission's item to it.
   */
  method GroupRows(ps: seq<PermissionRow>) returns (groups: seq<PermissionGroup>)
    ensures groups == Grouped(ps)
  {
    var byDomain: map<string, PermissionGroup> := map[];
    var order: seq<string> := [];
    var i := 0;
    while i < |ps|
      invariant 0 <= i <= |ps|
      invariant byDomain == GroupsAfter(ps[..i])
      invariant order == Domains(ps[..i])
    {
      assert ps[..i + 1][..i] == ps[..i];
      var p := ps[i];
      if p.entry.domain !in byDomain {
        GroupsKeys(ps[..i]);
        byDomain := byDomain[p.entry.domain := PermissionGroup(p.entry.domain, p.entry.moduleKey, [])];
        order := order + [p.entry.domain];
      } else {
        GroupsKeys(ps[..i]);
      }
      var g := byDomain[p.entry.domain];
      byDomain := byDomain[p.entry.domain := g.(permissions := g.permissions + [ItemOf(p)])];
      i := i + 1;
    }
    assert ps[..i] == ps;
    GroupsKeys(ps);
    groups := seq(|order|, k requires 0 <= k < |order| => byDomain[order[k]]);
  }

  /** `permission.findMany()` in an order the store chooses, then the grouping. */
  method GetGroupedPermissions(st: Store) returns (rows: seq<PermissionRow>, groups: seq<PermissionGroup>)
    ensures |rows| == |st.permissions|
    ensures forall k :: 0 <= k < |rows| ==> rows[k].id in st.permissions && rows[k].entry == st.permissions[rows[k].id]
    ensures forall p :: p in st.permissions ==> PermissionRow(p, st.permissions[p]) in rows
    ensures groups == Grouped(rows)
  {
    var perms := st.permissions;
    var ids := Enumerate(perms.Keys);
    rows := seq(|ids|, k requires 0 <= k < |ids| && ids[k] in perms => PermissionRow(ids[k], perms[ids[k]]));
    forall p | p in st.permissions
      ensures PermissionRow(p, st.permissions[p]) in rows
    {
      var k :| 0 <= k < |ids| && ids[k] == p;
      assert rows[k] == PermissionRow(p, st.permissions[p]);
    }
    groups := GroupRows(rows);
  }

  // ------------------------------------------------------------------
  // deletePermission
  // ------------------------------------------------------------------

  datatype Deletion = Deleted(entry: Permission) | AssignedToRoles | NotFound

  predicate Assigned(rps: set<(Id, Id)>, id: Id) {
    exists rp :: rp in rps && rp.1 == id
  }

  /**
   * A permission linked to any role is refused ("Permission is assigned to
   * roles") and nothing is deleted; otherwise exactly that permission is
   * deleted, and a missing one makes `delete` fail.
   */
  method DeletePermission(st: Store, id: Id) returns (r: Deletion)
    requires st.Valid()
    modifies st`permissions
    ensures st.Valid()
    ensures r == AssignedToRoles <==> Assigned(st.rolePermissions, id)
    ensures r == NotFound <==> !Assigned(st.rolePermissions, id) && id !in old(st.permissions)
    ensures r.Deleted? ==> id in old(st.permissions) && r.entry == old(st.permissions)[id]
    ensures r.Deleted? ==> st.permissions == old(st.permissions) - {id}
    ensures !r.Deleted? ==> st.permissions == old(st.permissions)
  {
    if exists rp :: rp in st.rolePermissions && rp.1 == id {
      return AssignedToRoles;
    }
    if id !in st.permissions {
      return NotFound;
    }
    r := Deleted(st.permissions[id]);
    st.permissions := st.permissions - {id};
  }

  // ------------------------------------------------------------------
  // createPermissionsBulk
  // ------------------------------------------------------------------

  predicate KeyUsed(perms: map<Id, Permission>, key: string) {
    exists p :: p in perms && perms[p].key == key
  }

  /** One `createMany` row: stored with a fresh id unless its key is already present. */
  method InsertUnlessPresent(perms: map<Id, Permission>, e: Permission) returns (next: map<Id, Permission>, added: bool)
    ensures added <==> !KeyUsed(perms, e.key)
    ensures !added ==> next == perms
    ensures added ==> exists id :: id !in perms && next == perms[id := e]
  {
    if KeyUsed(perms, e.key) {
      return perms, false;
    }
    var id := NewId(perms.Keys);
    next, added := perms[id := e], true;
  }

  predicate UniqueKeys(perms: map<Id, Permission>) {
    forall p, q :: p in perms && q in perms && perms[p].key == perms[q].key ==> p == q
  }

  /** The rows of the batch in order, each inserted unless its key is taken by then. */
  method InsertAll(before: map<Id, Permission>, data: seq<Permission>) returns (perms: map<Id, Permission>, count: nat)
    requires UniqueKeys(before)
    ensures UniqueKeys(perms)
    ensures forall p :: p in before ==> p in perms && perms[p] == before[p]
    ensures forall p :: p in perms && p !in before ==> perms[p] in data && !KeyUsed(before, perms[p].key)
    ensures forall p {:trigger FirstWithKey(data, perms[p].key)} :: p in perms && p !in before ==>
              Some(perms[p]) == FirstWithKey(data, perms[p].key)
    ensures forall i :: 0 <= i < |data| ==> KeyUsed(perms, data[i].key)
    ensures |perms| == |before| + count
    ensures (forall i :: 0 <= i < |data| ==> KeyUsed(before, data[i].key)) ==> count == 0 && perms == before
  {
    perms := before;
    count := 0;
    var i := 0;
    while i < |data|
      invariant 0 <= i <= |data|
      invariant forall p :: p in before ==> p in perms && perms[p] == before[p]
      invariant forall p :: p in perms && p !in before ==> !KeyUsed(before, perms[p].key)
      invariant forall p {:trigger FirstWithKey(data[..i], perms[p].key)} :: p in perms && p !in before ==>
                  Some(perms[p]) == FirstWithKey(data[..i], perms[p].key)
      invariant forall j :: 0 <= j < i ==> KeyUsed(perms, data[j].key)
      invariant UniqueKeys(perms)
      invariant |perms| == |before| + count
    {
      var prev := perms;
      var added;
      perms, added := InsertUnlessPresent(perms, data[i]);
      FirstRowStep(before, prev, perms, data, i, added);
      if added {
        InsertStep(before, prev, perms, data, i);
        count := count + 1;
      }
      i := i + 1;
    }
    assert data[..i] == data;
    forall p | p in perms && p !in before
      ensures perms[p] in data
    {
      assert Some(perms[p]) == FirstWithKey(data, perms[p].key);
    }
    if forall j :: 0 <= j < |data| ==> KeyUsed(before, data[j].key) {
      assert perms.Keys == before.Keys;
      assert perms == before;
    }
  }

  /** The first row of the batch with key `k`, if any. */
  function FirstWithKey(s: seq<Permission>, k: string): (r: Option<Permission>)
    ensures r.Some? ==> r.value in s && r.value.key == k
  {
    if s == [] then None
    else if s[0].key == k then Some(s[0])
    else FirstWithKey(s[1..], k)
  }

  /** There is no first row with a key exactly when no row has it. */
  lemma {:induction false} FirstWithKeyNone(s: seq<Permission>, k: string)
    ensures FirstWithKey(s, k).None? <==> forall j :: 0 <= j < |s| ==> s[j].key != k
  {
    if s != [] {
      FirstWithKeyNone(s[1..], k);
      assert forall j :: 1 <= j < |s| ==> s[j] == s[1..][j - 1];
    }
  }

  /** `FirstWithKey` picks the row at the first position holding the key. */
  lemma {:induction false} FirstWithKeyAt(s: seq<Permission>, j: nat, k: string)
    requires j < |s| && s[j].key == k
    requires forall l :: 0 <= l < j ==> s[l].key != k
    ensures FirstWithKey(s, k) == Some(s[j])
  {
    if j > 0 {
      FirstWithKeyAt(s[1..], j - 1, k);
    }
  }

  /** A row appended to the batch is the first with its key only when none before has it. */
  lemma {:induction false} FirstWithKeyAppend(s: seq<Permission>, x: Permission, k: string)
    ensures FirstWithKey(s + [x], k) ==
            if FirstWithKey(s, k).Some? then FirstWithKey(s, k) else if x.key == k then Some(x) else None
  {
    if s != [] {
      assert (s + [x])[1..] == s[1..] + [x];
      FirstWithKeyAppend(s[1..], x, k);
    }
  }

  /** Each stored row stays the first of the batch with its key as the loop advances. */
  lemma FirstRowStep(before: map<Id, Permission>, prev: map<Id, Permission>, next: map<Id, Permission>,
                     data: seq<Permission>, i: nat, added: bool)
    requires i < |data|
    requires forall p {:trigger FirstWithKey(data[..i], prev[p].key)} :: p in prev && p !in before ==>
               Some(prev[p]) == FirstWithKey(data[..i], prev[p].key)
    requires forall j :: 0 <= j < i ==> KeyUsed(prev, data[j].key)
    requires !added ==> next == prev
    requires added ==> !KeyUsed(prev, data[i].key) && exists id :: id !in prev && next == prev[id := data[i]]
    ensures forall p {:trigger FirstWithKey(data[..i + 1], next[p].key)} :: p in next && p !in before ==>
              Some(next[p]) == FirstWithKey(data[..i + 1], next[p].key)
  {
    assert data[..i + 1] == data[..i] + [data[i]];
    forall p | p in next && p !in before
      ensures Some(next[p]) == FirstWithKey(data[..i + 1], next[p].key)
    {
      FirstWithKeyAppend(data[..i], data[i], next[p].key);
      if added {
        var id :| id !in prev && next == prev[id := data[i]];
        if p == id {
          forall j | 0 <= j < i
            ensures data[..i][j].key != data[i].key
          {
            assert KeyUsed(prev, data[j].key);
          }
          FirstWithKeyNone(data[..i], data[i].key);
        }
      }
    }
  }

  /** One inserted row keeps the loop's facts. */
  lemma InsertStep(before: map<Id, Permission>, prev: map<Id, Permission>, next: map<Id, Permission>,
                   data: seq<Permission>, i: nat)
    requires i < |data|
    requires forall p :: p in before ==> p in prev && prev[p] == before[p]
    requires forall p :: p in prev && p !in before ==> !KeyUsed(before, prev[p].key)
    requires forall j :: 0 <= j < i ==> KeyUsed(prev, data[j].key)
    requires UniqueKeys(prev)
    requires !KeyUsed(prev, data[i].key)
    requires exists id :: id !in prev && next == prev[id := data[i]]
    ensures forall p :: p in before ==> p in next && next[p] == before[p]
    ensures forall p :: p in next && p !in before ==> !KeyUsed(before, next[p].key)
    ensures forall j :: 0 <= j < i + 1 ==> KeyUsed(next, data[j].key)
    ensures UniqueKeys(next)
    ensures |next| == |prev| + 1
  {
    var id :| id !in prev && next == prev[id := data[i]];
    assert data[..i + 1] == data[..i] + [data[i]];
    forall p | p in before
      ensures before[p].key != data[i].key
    {
      assert p in prev && prev[p] == before[p];
    }
    forall j | 0 <= j < i + 1
      ensures KeyUsed(next, data[j].key)
    {
      if j < i {
        assert KeyUsed(prev, data[j].key);
        var p :| p in prev && prev[p].key == data[j].key;
        assert p in next && next[p].key == data[j].key;
      } else {
        assert next[id].key == data[i].key;
      }
    }
  }

  /**
   * `createMany({ data, skipDuplicates: true })`: the rows whose key is
   * already present, in the store or earlier in the batch, are skipped;
   * `count` is the number inserted.
   */
  method CreatePermissionsBulk(st: Store, data: seq<Permission>) returns (count: nat)
    requires st.Valid()
    modifies st`permissions
    ensures st.Valid()
    ensures forall p :: p in old(st.permissions) ==> p in st.permissions && st.permissions[p] == old(st.permissions)[p]
    ensures forall p :: p in st.permissions && p !in old(st.permissions) ==>
              st.permissions[p] in data && !KeyUsed(old(st.permissions), st.permissions[p].key)
    ensures forall p :: p in st.permissions && p !in old(st.permissions) ==>
              Some(st.permissions[p]) == FirstWithKey(data, st.permissions[p].key)
    ensures forall i :: 0 <= i < |data| ==> KeyUsed(st.permissions, data[i].key)
    ensures |st.permissions| == |old(st.permissions)| + count
    ensures (forall i :: 0 <= i < |data| ==> KeyUsed(old(st.permissions), data[i].key)) ==>
              count == 0 && st.permissions == old(st.permissions)
  {
    assert UniqueKeys(st.permissions) by {
      assert st.PermissionKeysUnique();
    }
    var before := st.permissions;
    var perms;
    perms, count := InsertAll(before, data);
    st.SetPermissions(perms);
  }
}
