/** `requirePro` of packages/server/middleware/requirePro.ts: access to Pro
    routes decided from the processor's subscription, not from the stored
    plan. */
module RequirePro {
  import opened Wrappers
  import opened Http
  import opened Profiles
  import opened Processor
  import StripeService
  import Subscriptions
  import Billing

  /** `user?.claims?.sub || user?.id`: an empty `sub` falls through to `id`. */
  function ProUserId(auth: AuthUser): (r: Option<string>)
    ensures Truthy(auth.sub) ==> r == auth.sub
    ensures !Truthy(auth.sub) ==> r == auth.id
  {
    if Truthy(auth.sub) then auth.sub else auth.id
  }

  /** The middleware: 401 without a user id (the subscription is not looked
      at), 500 when looking it up throws, 402 when it is not active, and
      `next()` with nothing written when it is. */
  function RequirePro(auth: AuthUser, cfg: Config, users: map<UserId, Record>,
                      listing: map<CustomerId, seq<Subscription>>, fault: bool): (o: Outcome<Record>)
    ensures !Truthy(ProUserId(auth)) ==> o == Respond(401, ErrorBody("Unauthorized"))
    ensures Truthy(ProUserId(auth)) ==>
      match Subscriptions.GetUserSubscription(cfg, users, ProUserId(auth).value, listing, fault)
      case Failure(_) => o == Respond(500, ErrorBody("Subscription check failed"))
      case Success(info) => o == if info.active then CallNext(None) else Respond(402, ErrorBody("Pro required"))
  {
    var userId := ProUserId(auth);
    if !Truthy(userId) then Respond(401, ErrorBody("Unauthorized"))
    else
      match Subscriptions.GetUserSubscription(cfg, users, userId.value, listing, fault)
      case Failure(_) => Respond(500, ErrorBody("Subscription check failed"))
      case Success(sub) => if !sub.active then Respond(402, ErrorBody("Pro required")) else CallNext(None)
  }

  /** The gate lets a request through exactly when payments are on, the
      user's row holds a customer id, and the processor lists an active
      subscription for it (whose first item has a price). */
  lemma {:induction false} PassesIffActiveSubscription(auth: AuthUser, cfg: Config, users: map<UserId, Record>,
                                                       listing: map<CustomerId, seq<Subscription>>, fault: bool)
    requires Truthy(ProUserId(auth))
    requires Subscriptions.GetUserSubscription(cfg, users, ProUserId(auth).value, listing, fault).Success?
    ensures RequirePro(auth, cfg, users, listing, fault).CallNext? <==>
      var stored := StripeService.StoredCustomerId(users, ProUserId(auth).value);
      PaymentsOn(cfg) && Truthy(stored) && StripeService.HasActiveSubscription(listing, stored.value)
  {
    Subscriptions.ActiveIffListedActive(cfg, users, ProUserId(auth).value, listing, fault);
  }

  /** The stored plan plays no part: rewriting it on any row leaves the
      outcome as it was. */
  lemma RequireProIgnoresPlan(auth: AuthUser, cfg: Config, users: map<UserId, Record>,
                              listing: map<CustomerId, seq<Subscription>>, fault: bool, u: UserId, plan: Plan)
    requires u in users
    ensures RequirePro(auth, cfg, users[u := users[u].(plan := plan)], listing, fault)
         == RequirePro(auth, cfg, users, listing, fault)
  {
    var users' := users[u := users[u].(plan := plan)];
    if Truthy(ProUserId(auth)) {
      var uid := ProUserId(auth).value;
      assert StripeService.StoredCustomerId(users', uid) == StripeService.StoredCustomerId(users, uid);
    }
  }

  /** A pay-what-you-want user with no processor customer passes
      `requirePremium` and is refused by `requirePro`. */
  lemma PwywUserRefused(auth: AuthUser, cfg: Config, users: map<UserId, Record>,
                        listing: map<CustomerId, seq<Subscription>>)
    requires Truthy(auth.sub) && auth.sub.value in users
    requires users[auth.sub.value].plan == Pwyw && users[auth.sub.value].stripeCustomerId == None
    ensures Billing.RequirePremium(auth, users, false).CallNext?
    ensures RequirePro(auth, cfg, users, listing, false) == Respond(402, ErrorBody("Pro required"))
  {
  }

  /** The two user id rules differ exactly when `sub` is present but empty
      and `id` is not empty: `??` keeps the empty `sub`, `||` moves on. */
  lemma UserIdRulesDiffer(auth: AuthUser)
    ensures ProUserId(auth) != Billing.GetAuthUserId(auth) <==> auth.sub == Some("") && auth.id != Some("")
    ensures Truthy(Billing.GetAuthUserId(auth)) ==> ProUserId(auth) == Billing.GetAuthUserId(auth)
  {
  }
}
