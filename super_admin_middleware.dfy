/**
 * The `requireActiveSubscription` variant with a bypass for contexts
 * without a tenant: a falsy `tenantId` passes at once; otherwise the first
 * current subscription is attached to the request for later handlers.
 */
module SuperAdminMiddleware {
  import opened Base
  import opened Schema
  import SubscriptionMiddleware

  /**
   * What the guard does: pass without a query, pass with the position of
   * the attached subscription, or answer with a status, an optional error
   * code and a message.
   */
  datatype Outcome = Bypass | Attach(subscription: nat) | Answer(status: int, code: Option<string>, message: string)

  const RenewMessage: string := "Your subscription has expired. Please renew to continue."

  /**
   * The guard. A store failure (`fault`) or a truthy `tenantId` that is not
   * a string fails the query; the error is caught and answered with 500.
   */
  function Check(subs: seq<Subscription>, user: Claims, now: int, fault: bool): (r: Outcome)
    ensures !Present(Field(user, "tenantId")) ==> r == Bypass
    ensures r == Bypass ==> !Present(Field(user, "tenantId"))
    ensures Present(Field(user, "tenantId")) && (fault || !Field(user, "tenantId").value.JStr?) ==>
              r == Answer(500, None, "Subscription validation failed")
    ensures Present(Field(user, "tenantId")) && !fault && Field(user, "tenantId").value.JStr? &&
            FirstLive(subs, FilterOf(Field(user, "tenantId")), now, false).Some? ==>
              r == Attach(FirstLive(subs, FilterOf(Field(user, "tenantId")), now, false).value)
    ensures Present(Field(user, "tenantId")) && !fault && Field(user, "tenantId").value.JStr? &&
            FirstLive(subs, FilterOf(Field(user, "tenantId")), now, false).None? ==>
              r == Answer(403, Some("SUBSCRIPTION_EXPIRED"), RenewMessage)
  {
    var t := Field(user, "tenantId");
    if !Present(t) then Bypass
    else if fault || !t.value.JStr? then Answer(500, None, "Subscription validation failed")
    else
      match FirstLive(subs, FilterOf(t), now, false)
      case Some(i) => Attach(i)
      case None => Answer(403, Some("SUBSCRIPTION_EXPIRED"), RenewMessage)
  }

  /** The attached row belongs to the caller's tenant and is ACTIVE, ending at or after `now`. */
  lemma AttachedIsCurrent(subs: seq<Subscription>, user: Claims, now: int, fault: bool)
    requires Check(subs, user, now, fault).Attach?
    ensures var i := Check(subs, user, now, fault).subscription;
            i < |subs| && subs[i].tenantId == Field(user, "tenantId").value.s &&
            subs[i].status == Active && subs[i].endDate >= now
  {
  }

  /**
   * For a context naming a tenant, this guard and the plain one agree:
   * one attaches a subscription exactly when the other calls `next`.
   */
  lemma AgreesWithPlainGuard(subs: seq<Subscription>, user: Claims, now: int)
    requires Field(user, "tenantId").Some? && Field(user, "tenantId").value.JStr?
    requires Field(user, "tenantId").value.s != ""
    ensures Check(subs, user, now, false).Attach? <==> SubscriptionMiddleware.Check(subs, user, now, false) == Next
  {
    var f := FilterOf(Field(user, "tenantId"));
    match FirstLive(subs, f, now, false)
    case Some(i) =>
      assert Matches(f, subs[i].tenantId) && CurrentAt(subs[i], now);
    case None =>
  }

  /** A context without a tenant is let through by this guard whatever the subscriptions. */
  lemma TenantlessPasses(subs: seq<Subscription>, user: Claims, now: int, fault: bool)
    requires "tenantId" !in user || user["tenantId"] == JNull || user["tenantId"] == JStr("")
    ensures Check(subs, user, now, fault) == Bypass
  {
  }
}
