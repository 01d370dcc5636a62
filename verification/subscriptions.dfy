/** `getUserSubscription` of packages/server/services/billing/subscriptions.ts:
    what the processor says about a user's subscription, decided from the
    first subscription it lists. */
module Subscriptions {
  import opened Wrappers
  import opened Http
  import opened Profiles
  import opened Processor
  import StripeService

  datatype SubPlan = ProMonthly | ProYearly

  datatype SubscriptionInfo = SubscriptionInfo(active: bool, plan: Option<SubPlan>, currentPeriodEnd: Option<int>)

  const Inactive := SubscriptionInfo(false, None, None)

  /** The plan a price id stands for.  The yearly comparison runs second, so
      it wins when both configured ids are the same; an id that is not
      configured matches nothing. */
  function PlanForPrice(priceId: string, monthly: Option<string>, yearly: Option<string>): (r: Option<SubPlan>)
    ensures r == Some(ProYearly) <==> yearly == Some(priceId)
    ensures r == Some(ProMonthly) <==> monthly == Some(priceId) && yearly != Some(priceId)
    ensures r == None <==> monthly != Some(priceId) && yearly != Some(priceId)
  {
    var plan := None;
    var plan := if monthly == Some(priceId) then Some(ProMonthly) else plan;
    var plan := if yearly == Some(priceId) then Some(ProYearly) else plan;
    plan
  }

  /** A status that grants access. */
  predicate ActiveStatus(status: string) {
    status == "active" || status == "trialing"
  }

  /** The summary of one subscription.  Reading the first item's price of a
      subscription with no items throws. */
  function Summarize(sub: Subscription, cfg: Config): (r: Result<SubscriptionInfo, string>)
    ensures r.Failure? <==> sub.priceIds == []
    ensures r.Success? ==>
      && (r.value.active <==> ActiveStatus(sub.status))
      && r.value.plan == PlanForPrice(sub.priceIds[0], cfg.monthlyPriceId, cfg.yearlyPriceId)
      && (r.value.currentPeriodEnd.None? <==> sub.currentPeriodEnd == 0)
      && (r.value.currentPeriodEnd.Some? ==> r.value.currentPeriodEnd.value == sub.currentPeriodEnd)
  {
    if sub.priceIds == [] then Failure("TypeError: no subscription item")
    else
      Success(SubscriptionInfo(
        sub.status == "active" || sub.status == "trialing",
        PlanForPrice(sub.priceIds[0], cfg.monthlyPriceId, cfg.yearlyPriceId),
        if sub.currentPeriodEnd == 0 then None else Some(sub.currentPeriodEnd)))
  }

  /** `getUserSubscription`.  `fault` stands for a failing read of the user
      row; `listing` is what the processor lists per customer. */
  function GetUserSubscription(cfg: Config, users: map<UserId, Record>, userId: UserId,
                               listing: map<CustomerId, seq<Subscription>>, fault: bool)
    : (r: Result<SubscriptionInfo, string>)
    // payments off: inactive, whatever the row, the fault or the processor
    ensures !PaymentsOn(cfg) ==> r == Success(Inactive)
    ensures PaymentsOn(cfg) && fault ==> r.Failure?
    // no stored id, or nothing listed: inactive
    ensures PaymentsOn(cfg) && !fault && !Truthy(StripeService.StoredCustomerId(users, userId)) ==>
      r == Success(Inactive)
    ensures PaymentsOn(cfg) && !fault && Truthy(StripeService.StoredCustomerId(users, userId)) ==>
      var subs := StripeService.GetCustomerSubscriptions(listing, StripeService.StoredCustomerId(users, userId).value);
      // only the first listed subscription is looked at
      r == if subs == [] then Success(Inactive) else Summarize(subs[0], cfg)
  {
    if !PaymentsOn(cfg) then Success(Inactive)
    else if fault then Failure("database read failed")
    else
      var customerId := StripeService.StoredCustomerId(users, userId);
      if !Truthy(customerId) then Success(Inactive)
      else
        var subscriptions := StripeService.GetCustomerSubscriptions(listing, customerId.value);
        if |subscriptions| == 0 then Success(Inactive)
        else Summarize(subscriptions[0], cfg)
  }

  /** Because the list call asks only for "active" subscriptions, a
      subscription is reported active exactly when the processor lists an
      active one for the stored customer (and the first one has an item). */
  lemma ActiveIffListedActive(cfg: Config, users: map<UserId, Record>, userId: UserId,
                              listing: map<CustomerId, seq<Subscription>>, fault: bool)
    requires GetUserSubscription(cfg, users, userId, listing, fault).Success?
    ensures GetUserSubscription(cfg, users, userId, listing, fault).value.active <==>
      && PaymentsOn(cfg)
      && Truthy(StripeService.StoredCustomerId(users, userId))
      && StripeService.HasActiveSubscription(listing, StripeService.StoredCustomerId(users, userId).value)
  {
    if PaymentsOn(cfg) && Truthy(StripeService.StoredCustomerId(users, userId)) {
      var cid := StripeService.StoredCustomerId(users, userId).value;
      var subs := StripeService.GetCustomerSubscriptions(listing, cid);
      if subs != [] {
        assert subs[0] in subs;
      }
    }
  }

  /** A customer whose subscriptions are all "trialing" is reported
      inactive: the `trialing` test never sees a trialing subscription. */
  lemma TrialingOnlyIsInactive(cfg: Config, users: map<UserId, Record>, userId: UserId,
                               listing: map<CustomerId, seq<Subscription>>)
    requires PaymentsOn(cfg)
    requires Truthy(StripeService.StoredCustomerId(users, userId))
    requires StripeService.StoredCustomerId(users, userId).value in listing
    requires forall s | s in listing[StripeService.StoredCustomerId(users, userId).value] :: s.status == "trialing"
    ensures GetUserSubscription(cfg, users, userId, listing, false) == Success(Inactive)
  {
  }
}
