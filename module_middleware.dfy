/**
 * `requireModule(key)`: a request passes when the caller's tenant has a
 * current subscription whose plan links a catalog module with that key.
 * The tenant's module switches are not consulted: the decision takes the
 * subscriptions, the plan links and the catalog and nothing else.
 */
module ModuleMiddleware {
  import opened Base
  import opened Schema

  /** Whether `planId` links a catalog module whose key is exactly `key`. */
  predicate PlanLinks(planModules: set<(Id, Id)>, modules: map<Id, Module>, planId: Id, key: string) {
    exists m :: m in modules && (planId, m) in planModules && modules[m].key == key
  }

  /** Whether the subscription at `i` grants `key` to a tenant passing `f` at `now`. */
  predicate GrantsAt(subs: seq<Subscription>, planModules: set<(Id, Id)>, modules: map<Id, Module>,
                     f: IdFilter, key: string, now: int, i: int)
    requires 0 <= i < |subs|
  {
    Matches(f, subs[i].tenantId) && CurrentAt(subs[i], now) && PlanLinks(planModules, modules, subs[i].planId, key)
  }

  predicate Entitled(subs: seq<Subscription>, planModules: set<(Id, Id)>, modules: map<Id, Module>,
                     f: IdFilter, key: string, now: int) {
    exists i :: 0 <= i < |subs| && GrantsAt(subs, planModules, modules, f, key, now, i)
  }

  function Unavailable(key: string): string {
    "Module \"" + key + "\" is not available in your plan"
  }

  /** The refusal names the module: the key sits between the quotes. */
  lemma UnavailableNamesModule(key: string)
    ensures Unavailable(key)[8..8 + |key|] == key
    ensures Unavailable(key)[..8] == "Module \""
  {
  }

  /**
   * The guard for `key`. `fault` says that the store fails the query; a
   * `tenantId` that is neither undefined nor a string makes it fail too.
   * Both are caught and answered with 500. An undefined `tenantId` drops
   * the tenant condition.
   */
  function Check(subs: seq<Subscription>, planModules: set<(Id, Id)>, modules: map<Id, Module>,
                 user: Claims, key: string, now: int, fault: bool): (r: Verdict)
    ensures r != Raise
    ensures fault || FilterOf(Field(user, "tenantId")).Rejected? ==> r == Refuse(500, "Module access validation failed")
    ensures r == Next <==>
              !fault && !FilterOf(Field(user, "tenantId")).Rejected? &&
              Entitled(subs, planModules, modules, FilterOf(Field(user, "tenantId")), key, now)
    ensures !fault && !FilterOf(Field(user, "tenantId")).Rejected? &&
            !Entitled(subs, planModules, modules, FilterOf(Field(user, "tenantId")), key, now) ==>
              r == Refuse(403, Unavailable(key))
  {
    var f := FilterOf(Field(user, "tenantId"));
    if fault || f.Rejected? then Refuse(500, "Module access validation failed")
    else if Entitled(subs, planModules, modules, f, key, now) then Next
    else Refuse(403, Unavailable(key))
  }

  /** A subscription ending exactly now still counts (`gte`). */
  lemma LastInstantStillAllowed(subs: seq<Subscription>, planModules: set<(Id, Id)>, modules: map<Id, Module>,
                                user: Claims, key: string, i: int, m: Id)
    requires Field(user, "tenantId").Some? && Field(user, "tenantId").value.JStr?
    requires 0 <= i < |subs| && subs[i].tenantId == Field(user, "tenantId").value.s
    requires subs[i].status == Active
    requires m in modules && (subs[i].planId, m) in planModules && modules[m].key == key
    ensures Check(subs, planModules, modules, user, key, subs[i].endDate, false) == Next
  {
    assert GrantsAt(subs, planModules, modules, FilterOf(Field(user, "tenantId")), key, subs[i].endDate, i);
  }

  /** Linking more modules to plans never turns an allow into a refusal. */
  lemma MoreLinksStillAllow(subs: seq<Subscription>, pm1: set<(Id, Id)>, pm2: set<(Id, Id)>,
                            modules: map<Id, Module>, user: Claims, key: string, now: int)
    requires pm1 <= pm2
    requires Check(subs, pm1, modules, user, key, now, false) == Next
    ensures Check(subs, pm2, modules, user, key, now, false) == Next
  {
    var f := FilterOf(Field(user, "tenantId"));
    var i :| 0 <= i < |subs| && GrantsAt(subs, pm1, modules, f, key, now, i);
    var m :| m in modules && (subs[i].planId, m) in pm1 && modules[m].key == key;
    assert GrantsAt(subs, pm2, modules, f, key, now, i);
  }

  /** A tenant whose subscriptions are all cancelled or expired is refused, whatever their end dates. */
  lemma InactiveSubscriptionsRefused(subs: seq<Subscription>, planModules: set<(Id, Id)>, modules: map<Id, Module>,
                                     user: Claims, key: string, now: int)
    requires Field(user, "tenantId").Some? && Field(user, "tenantId").value.JStr?
    requires forall i :: 0 <= i < |subs| && subs[i].tenantId == Field(user, "tenantId").value.s ==>
               subs[i].status != Active
    ensures Check(subs, planModules, modules, user, key, now, false) == Refuse(403, Unavailable(key))
  {
  }
}
