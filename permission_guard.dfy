/**
 * `requirePermission(perm)` over the context's own `permissions` value:
 * `req.user.permissions.includes(perm)`, with no store access.
 */
module PermissionGuard {
  import opened Base
  import AuthMiddleware

  /** Whether `t` occurs in `s` as a contiguous piece (`String.prototype.includes`). */
  predicate Occurs(t: string, s: string) {
    exists i, j :: 0 <= i <= j <= |s| && s[i..j] == t
  }

  /** Whether `items` holds the string `perm` (`Array.prototype.includes`, strict equality). */
  predicate Listed(items: seq<Json>, perm: string) {
    JStr(perm) in items
  }

  /**
   * The guard for `perm`. An array is searched for the exact string; a
   * string value is searched for a piece equal to `perm`; a missing
   * value, `null` or any other value has no `includes` and throws.
   */
  function Check(user: Claims, perm: string): (r: Verdict)
    ensures r == Next <==>
              Field(user, "permissions").Some? &&
              ((Field(user, "permissions").value.JArr? && Listed(Field(user, "permissions").value.items, perm)) ||
               (Field(user, "permissions").value.JStr? && Occurs(perm, Field(user, "permissions").value.s)))
    ensures r == Raise <==>
              !(Field(user, "permissions").Some? &&
                (Field(user, "permissions").value.JArr? || Field(user, "permissions").value.JStr?))
    ensures r.Refuse? ==> r == Refuse(403, "Forbidden")
  {
    match Field(user, "permissions")
    case Some(JArr(items)) => if Listed(items, perm) then Next else Refuse(403, "Forbidden")
    case Some(JStr(s)) => if Occurs(perm, s) then Next else Refuse(403, "Forbidden")
    case _ => Raise
  }

  /** A longer permission list never turns an allow into a refusal. */
  lemma MoreListedStillAllow(user: Claims, items1: seq<Json>, items2: seq<Json>, perm: string)
    requires forall x :: x in items1 ==> x in items2
    requires Check(user["permissions" := JArr(items1)], perm) == Next
    ensures Check(user["permissions" := JArr(items2)], perm) == Next
  {
    assert Field(user["permissions" := JArr(items1)], "permissions") == Some(JArr(items1));
    assert Field(user["permissions" := JArr(items2)], "permissions") == Some(JArr(items2));
  }

  /** Listing the permission itself is enough. */
  lemma ListedAllows(user: Claims, items: seq<Json>, perm: string)
    requires Field(user, "permissions") == Some(JArr(items)) && JStr(perm) in items
    ensures Check(user, perm) == Next
  {
  }

  /** A string value passes for any piece of itself, so "students.create" admits "students". */
  lemma StringValueMatchesPieces(user: Claims, s: string, i: nat, j: nat)
    requires Field(user, "permissions") == Some(JStr(s)) && i <= j <= |s|
    ensures Check(user, s[i..j]) == Next
  {
  }

  /** Behind `authMiddleware` the context has no `permissions`, so this guard always throws. */
  lemma ThrowsBehindAuthMiddleware(header: Option<string>, verify: string -> Option<Claims>, admitted: string, perm: string)
    requires AuthMiddleware.AuthenticateAs(header, verify, admitted).Pass?
    ensures Check(AuthMiddleware.AuthenticateAs(header, verify, admitted).user, perm) == Raise
  {
    AuthMiddleware.ContextLacksPermissionsAndTenant(header, verify, admitted);
  }
}
