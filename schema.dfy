/**
 * The rows of the relational store the backend reads and writes, one
 * datatype per table. Row identifiers live in the maps of the `Store`
 * class; junction tables are sets of identifier pairs.
 */
module Schema {
  import opened Base

  datatype Tenant = Tenant(name: string, tenantType: string, isActive: bool, createdAt: int)

  datatype Role = Role(name: string, tenantId: Option<Id>)

  /** A tenant user; `password` holds the stored hash. */
  datatype User = User(
    email: string,
    password: string,
    tenantId: Option<Id>,
    roleId: Option<Id>,
    isActive: bool,
    failedLoginCount: int,
    lockedUntil: Option<int>)

  datatype SuperAdmin = SuperAdmin(
    email: string,
    password: string,
    name: string,
    isActive: bool,
    failedLoginCount: int,
    lockedUntil: Option<int>,
    lastLogin: Option<int>)

  datatype Permission = Permission(key: string, domain: string, action: string, moduleKey: Option<string>)

  datatype Module = Module(key: string, name: string, isCommon: bool)

  /** `duration` is in days. */
  datatype Plan = Plan(name: string, price: int, duration: int, isActive: bool)

  datatype SubStatus = Active | Cancelled | Expired

  datatype Subscription = Subscription(tenantId: Id, planId: Id, status: SubStatus, startDate: int, endDate: int)

  /** The (tenant, module) switch; `source` is "PLAN" for rows created at self-registration. */
  datatype TenantModule = TenantModule(enabled: bool, source: Option<string>)

  /** One row per login attempt; `email` is the submitted value, possibly undefined. */
  datatype LoginAttempt = LoginAttempt(
    actorType: string,
    principalId: Option<Id>,
    tenantId: Option<Id>,
    email: Option<Json>,
    success: bool,
    reason: string)

  datatype AuditEntry = AuditEntry(actorType: string, action: string, entity: string, entityId: Id)

  /** Whether a subscription counts as current at `now`, with the `gte` comparison. */
  predicate CurrentAt(s: Subscription, now: int) {
    s.status == Active && s.endDate >= now
  }

  /** The same, with the strict `gt` comparison of the profile endpoint. */
  predicate CurrentAfter(s: Subscription, now: int) {
    s.status == Active && s.endDate > now
  }

  /** Current by the handler's comparison: `gte`, or `gt` when `strict`. */
  predicate Live(s: Subscription, now: int, strict: bool) {
    if strict then CurrentAfter(s, now) else CurrentAt(s, now)
  }

  /**
   * `subscription.findFirst` over the rows whose tenant passes `f` and that
   * are current at `now`: the position of the first such row, assuming
   * the rows come back in insertion order.
   */
  function FirstLive(subs: seq<Subscription>, f: IdFilter, now: int, strict: bool): (r: Option<nat>)
    ensures r.Some? ==> r.value < |subs| && Matches(f, subs[r.value].tenantId) && Live(subs[r.value], now, strict)
    ensures r.Some? ==> forall j :: 0 <= j < r.value ==> !(Matches(f, subs[j].tenantId) && Live(subs[j], now, strict))
    ensures r.None? ==> forall j :: 0 <= j < |subs| ==> !(Matches(f, subs[j].tenantId) && Live(subs[j], now, strict))
  {
    if subs == [] then None
    else if Matches(f, subs[0].tenantId) && Live(subs[0], now, strict) then Some(0)
    else match FirstLive(subs[1..], f, now, strict)
      case None => None
      case Some(k) => Some(k + 1)
  }
}
