/**
 * The plain `requireActiveSubscription`: the caller's tenant must have an
 * ACTIVE subscription ending at or after `now`. There is no bypass and no
 * error handler.
 */
module SubscriptionMiddleware {
  import opened Base
  import opened Schema

  /** Whether some subscription of a tenant passing `f` is current at `now`. */
  predicate HasCurrent(subs: seq<Subscription>, f: IdFilter, now: int) {
    exists i :: 0 <= i < |subs| && Matches(f, subs[i].tenantId) && CurrentAt(subs[i], now)
  }

  const Expired: string := "Subscription expired. Please upgrade your plan."

  /**
   * The guard. A store failure (`fault`) or a `tenantId` that is neither
   * undefined nor a string throws; an undefined `tenantId` drops the
   * tenant condition.
   */
  function Check(subs: seq<Subscription>, user: Claims, now: int, fault: bool): (r: Verdict)
    ensures r == Raise <==> fault || FilterOf(Field(user, "tenantId")).Rejected?
    ensures r == Next <==>
              !fault && !FilterOf(Field(user, "tenantId")).Rejected? &&
              HasCurrent(subs, FilterOf(Field(user, "tenantId")), now)
    ensures r.Refuse? ==> r == Refuse(403, Expired)
  {
    var f := FilterOf(Field(user, "tenantId"));
    if fault || f.Rejected? then Raise
    else
      match FirstLive(subs, f, now, false)
      case Some(_) => Next
      case None => Refuse(403, Expired)
  }

  /** Cancelled and expired rows never satisfy the guard, whatever their end dates. */
  lemma OnlyActiveCounts(subs: seq<Subscription>, user: Claims, now: int)
    requires forall i :: 0 <= i < |subs| ==> subs[i].status != Active
    ensures Check(subs, user, now, false) != Next
  {
  }

  /** A subscription ending exactly now still counts (`gte`). */
  lemma LastInstantStillAllowed(subs: seq<Subscription>, user: Claims, i: int)
    requires Field(user, "tenantId").Some? && Field(user, "tenantId").value.JStr?
    requires 0 <= i < |subs| && subs[i].tenantId == Field(user, "tenantId").value.s && subs[i].status == Active
    ensures Check(subs, user, subs[i].endDate, false) == Next
  {
    assert Matches(FilterOf(Field(user, "tenantId")), subs[i].tenantId);
  }

  /** A context without `tenantId` passes when any tenant at all has a current subscription. */
  lemma MissingTenantMatchesAnyTenant(subs: seq<Subscription>, user: Claims, now: int, i: int)
    requires "tenantId" !in user
    requires 0 <= i < |subs| && CurrentAt(subs[i], now)
    ensures Check(subs, user, now, false) == Next
  {
    assert Matches(AnyId, subs[i].tenantId);
  }
}
