/** packages/server/billing.ts: the payments switch, the user id lookup, the
    webhook that reconciles processor events into user rows, the two
    pay-what-you-want routes, and the premium check. */
module Billing {
  import opened Wrappers
  import opened Http
  import opened Profiles
  import opened Processor
  import StripeService

  // ---------------------------------------------------------------------
  // Request helpers

  /** `assertPaymentsOn`: the response it writes when it stops the request,
      or none when the request may go on. */
  function PaymentsGate(cfg: Config): (r: Option<Outcome<Record>>)
    ensures r.None? <==> PaymentsOn(cfg) && Truthy(cfg.secretKey)
    ensures !PaymentsOn(cfg) ==> r == Some(Respond(400, ErrorBody("Payments disabled")))
    ensures PaymentsOn(cfg) && !Truthy(cfg.secretKey) ==>
      r == Some(Respond(500, ErrorBody("Stripe is not configured")))
  {
    if !PaymentsOn(cfg) then Some(Respond(400, ErrorBody("Payments disabled")))
    else if !Truthy(cfg.secretKey) then Some(Respond(500, ErrorBody("Stripe is not configured")))
    else None
  }

  /** `getAuthUserId`: `claims.sub ?? id`.  Only a missing `sub` falls back
      to `id`; an empty `sub` is kept (and then refused by the callers). */
  function GetAuthUserId(auth: AuthUser): (r: Option<string>)
    ensures auth.sub.Some? ==> r == auth.sub
    ensures auth.sub.None? ==> r == auth.id
  {
    if auth.sub.Some? then auth.sub else auth.id
  }

  // ---------------------------------------------------------------------
  // Processor events

  /** The `customer` field of an event object: absent, an id, or an
      expanded customer object. */
  datatype CustomerRef = NoCustomer | CustomerIdRef(id: string) | ExpandedCustomer

  /** `typeof customer === "string" ? customer : undefined`. */
  function StringCustomer(c: CustomerRef): (r: Option<string>)
    ensures r.Some? <==> c.CustomerIdRef?
    ensures r.Some? ==> r.value == c.id
  {
    if c.CustomerIdRef? then Some(c.id) else None
  }

  datatype SubscriptionObject = SubscriptionObject(
    customer: CustomerRef,
    status: string,
    currentPeriodEnd: Option<int>)       // epoch seconds

  datatype PaymentIntentObject = PaymentIntentObject(
    customer: CustomerRef,
    metadataKind: Option<string>,
    amountReceived: Option<int>,
    amount: Option<int>)

  /** The event kinds the webhook tells apart; any other type string is
      `OtherEvent`. */
  datatype Event =
    | CheckoutSessionCompleted(customer: CustomerRef, metadataUserId: Option<string>)
    | SubscriptionCreated(subscription: SubscriptionObject)
    | SubscriptionUpdated(subscription: SubscriptionObject)
    | SubscriptionDeleted(subscription: SubscriptionObject)
    | PaymentIntentSucceeded(intent: PaymentIntentObject)
    | OtherEvent(kind: string)

  /** The outcome of `constructEvent`: the signature over the raw body
      checked out, or it did not. */
  datatype Delivery = Verified(event: Event) | SignatureInvalid

  /** A row with this customer id. */
  predicate HasCustomer(users: map<UserId, Record>, u: UserId, cid: CustomerId)
    requires u in users
  {
    users[u].stripeCustomerId == Some(cid)
  }

  /** The fields no webhook branch writes, or that a branch keeps. */
  predicate SameProfile(before: Record, after: Record) {
    before.email == after.email && before.firstName == after.firstName && before.lastName == after.lastName
  }

  predicate SamePwyw(before: Record, after: Record) {
    before.pwywAmountCents == after.pwywAmountCents && before.pwywGrantedAt == after.pwywGrantedAt
  }

  /** What checkout completion writes on a row, apart from the customer id. */
  predicate CheckoutGranted(before: Record, after: Record) {
    && after.plan == Pro
    && after.subscriptionStatus == Some("active")
    && after.pwywAmountCents == None && after.pwywGrantedAt == None
    && after.currentPeriodEnd == before.currentPeriodEnd
    && SameProfile(before, after)
  }

  /** The write of checkout completion by user id; a customer id that is a
      string is recorded, anything else leaves the stored id alone. */
  function CheckoutPatch(customerId: Option<string>): Patch {
    NoChange.(
      stripeCustomerId := if customerId.Some? then Put(customerId) else Keep,
      plan := Put(Pro),
      subscriptionStatus := Put(Some("active")),
      pwywAmountCents := Put(None),
      pwywGrantedAt := Put(None))
  }

  /** The write of checkout completion by customer id. */
  const CheckoutByCustomerPatch: Patch :=
    NoChange.(
      plan := Put(Pro),
      subscriptionStatus := Put(Some("active")),
      pwywAmountCents := Put(None),
      pwywGrantedAt := Put(None))

  /** checkout.session.completed.  A non-empty metadata user id picks the
      row; only without one does a non-empty string customer id pick the
      rows holding it; with neither nothing changes. */
  function CheckoutCompleted(users: map<UserId, Record>, customer: CustomerRef, metadataUserId: Option<string>)
    : (r: map<UserId, Record>)
    ensures r.Keys == users.Keys
    ensures Truthy(metadataUserId) ==>
      && (metadataUserId.value in users ==>
            var before, after := users[metadataUserId.value], r[metadataUserId.value];
            && CheckoutGranted(before, after)
            && after.stripeCustomerId == (if customer.CustomerIdRef? then Some(customer.id) else before.stripeCustomerId))
      && forall u | u in users && u != metadataUserId.value :: r[u] == users[u]
    ensures !Truthy(metadataUserId) && Truthy(StringCustomer(customer)) ==>
      forall u | u in users ::
        if HasCustomer(users, u, customer.id)
        then CheckoutGranted(users[u], r[u]) && r[u].stripeCustomerId == users[u].stripeCustomerId
        else r[u] == users[u]
    ensures !Truthy(metadataUserId) && !Truthy(StringCustomer(customer)) ==> r == users
  {
    var customerId := StringCustomer(customer);
    if Truthy(metadataUserId) then UpdateById(users, metadataUserId.value, CheckoutPatch(customerId))
    else if Truthy(customerId) then UpdateByCustomer(users, customerId.value, CheckoutByCustomerPatch)
    else users
  }

  /** The plan a subscription status gives. */
  function PlanForStatus(status: string): (p: Plan)
    ensures p == Pro <==> status == "active" || status == "trialing"
    ensures p != Pwyw
  {
    if status == "active" || status == "trialing" then Pro else Free
  }

  /** The stored period end: seconds turned into milliseconds, with a
      missing or zero value stored as null. */
  function PeriodEndMillis(seconds: Option<int>): (r: Option<int>)
    ensures r.None? <==> seconds.None? || seconds == Some(0)
    ensures r.Some? ==> r.value == seconds.value * 1000
  {
    if seconds.Some? && seconds.value != 0 then Some(seconds.value * 1000) else None
  }

  /** `customerId ?? ""`: a customer that is not a string is looked up as
      the empty id. */
  function SubscriptionKey(sub: SubscriptionObject): (k: CustomerId)
    ensures sub.customer.CustomerIdRef? ==> k == sub.customer.id
    ensures !sub.customer.CustomerIdRef? ==> k == ""
  {
    if sub.customer.CustomerIdRef? then sub.customer.id else ""
  }

  function SubscriptionPatch(sub: SubscriptionObject): Patch {
    NoChange.(
      plan := Put(PlanForStatus(sub.status)),
      subscriptionStatus := Put(Some(sub.status)),
      currentPeriodEnd := Put(PeriodEndMillis(sub.currentPeriodEnd)))
  }

  /** customer.subscription.created / .updated: on every row holding the
      customer id, pro exactly when the status is active or trialing, free
      otherwise; the status stored as it came; the period end converted; the
      pay-what-you-want fields and the customer id left as they were. */
  function SubscriptionChanged(users: map<UserId, Record>, sub: SubscriptionObject): (r: map<UserId, Record>)
    ensures r.Keys == users.Keys
    ensures forall u | u in users ::
      if HasCustomer(users, u, SubscriptionKey(sub)) then
        && (r[u].plan == Pro <==> sub.status == "active" || sub.status == "trialing")
        && (r[u].plan == Free <==> !(sub.status == "active" || sub.status == "trialing"))
        && r[u].subscriptionStatus == Some(sub.status)
        && r[u].currentPeriodEnd == PeriodEndMillis(sub.currentPeriodEnd)
        && SamePwyw(users[u], r[u])
        && r[u].stripeCustomerId == users[u].stripeCustomerId
        && SameProfile(users[u], r[u])
      else r[u] == users[u]
  {
    UpdateByCustomer(users, SubscriptionKey(sub), SubscriptionPatch(sub))
  }

  const DeletedPatch: Patch :=
    NoChange.(
      plan := Put(Free),
      subscriptionStatus := Put(Some("canceled")),
      currentPeriodEnd := Put(None))

  /** customer.subscription.deleted: free, canceled, no period end on every
      row holding the customer id; the pay-what-you-want fields stay. */
  function SubscriptionDeleted(users: map<UserId, Record>, sub: SubscriptionObject): (r: map<UserId, Record>)
    ensures r.Keys == users.Keys
    ensures forall u | u in users ::
      if HasCustomer(users, u, SubscriptionKey(sub)) then
        && r[u].plan == Free
        && r[u].subscriptionStatus == Some("canceled")
        && r[u].currentPeriodEnd == None
        && SamePwyw(users[u], r[u])
        && r[u].stripeCustomerId == users[u].stripeCustomerId
        && SameProfile(users[u], r[u])
      else r[u] == users[u]
  {
    UpdateByCustomer(users, SubscriptionKey(sub), DeletedPatch)
  }

  /** The write of a pay-what-you-want grant. */
  function PwywGrant(amountCents: int, now: int): Patch {
    NoChange.(
      plan := Put(Pwyw),
      subscriptionStatus := Put(None),
      pwywAmountCents := Put(Some(amountCents)),
      pwywGrantedAt := Put(Some(now)))
  }

  /** What a pay-what-you-want grant writes on a row. */
  predicate PwywGranted(before: Record, after: Record, amountCents: int, now: int) {
    && after.plan == Pwyw
    && after.subscriptionStatus == None
    && after.pwywAmountCents == Some(amountCents)
    && after.pwywGrantedAt == Some(now)
    && after.currentPeriodEnd == before.currentPeriodEnd
    && after.stripeCustomerId == before.stripeCustomerId
    && SameProfile(before, after)
  }

  /** `intent.customer` is truthy: a non-empty id or an expanded object. */
  predicate IntentHasCustomer(intent: PaymentIntentObject): (b: bool)
    ensures b <==> intent.customer != NoCustomer && intent.customer != CustomerIdRef("")
  {
    intent.customer.ExpandedCustomer? || (intent.customer.CustomerIdRef? && intent.customer.id != "")
  }

  /** `String(intent.customer)`. */
  function IntentKey(intent: PaymentIntentObject): (k: CustomerId)
    ensures intent.customer.CustomerIdRef? ==> k == intent.customer.id
    ensures intent.customer.ExpandedCustomer? ==> k == "[object Object]"
    ensures intent.customer.NoCustomer? ==> k == "undefined"
    // a customer that is present never gives the empty key
    ensures IntentHasCustomer(intent) ==> k != ""
  {
    match intent.customer
    case CustomerIdRef(id) => id
    case ExpandedCustomer => "[object Object]"
    case NoCustomer => "undefined"
  }

  /** The amount granted: `amount_received` when it is a number, else
      `amount ?? 0`. */
  function IntentAmount(intent: PaymentIntentObject): (r: int)
    ensures intent.amountReceived.Some? ==> r == intent.amountReceived.value
    ensures intent.amountReceived.None? && intent.amount.Some? ==> r == intent.amount.value
    ensures intent.amountReceived.None? && intent.amount.None? ==> r == 0
  {
    if intent.amountReceived.Some? then intent.amountReceived.value else intent.amount.GetOr(0)
  }

  /** Whether payment_intent.succeeded acts at all. */
  predicate IntentActs(intent: PaymentIntentObject): (b: bool)
    ensures b ==> intent.metadataKind == Some("pwyw") && IntentKey(intent) != ""
    ensures intent.customer.NoCustomer? || intent.metadataKind != Some("pwyw") ==> !b
    ensures intent.metadataKind == Some("pwyw") && IntentHasCustomer(intent) ==> b
  {
    intent.metadataKind == Some("pwyw") && IntentHasCustomer(intent)
  }

  /** payment_intent.succeeded: only for a pay-what-you-want intent with a
      customer; then every row holding that customer gets the grant. */
  function PaymentSucceeded(users: map<UserId, Record>, intent: PaymentIntentObject, now: int)
    : (r: map<UserId, Record>)
    ensures r.Keys == users.Keys
    ensures !IntentActs(intent) ==> r == users
    ensures IntentActs(intent) ==> forall u | u in users ::
      if HasCustomer(users, u, IntentKey(intent)) then PwywGranted(users[u], r[u], IntentAmount(intent), now)
      else r[u] == users[u]
  {
    if IntentActs(intent) then UpdateByCustomer(users, IntentKey(intent), PwywGrant(IntentAmount(intent), now))
    else users
  }

  /** The webhook `switch`: the rows after one event. */
  function Step(users: map<UserId, Record>, ev: Event, now: int): (r: map<UserId, Record>)
    ensures r.Keys == users.Keys
    ensures ev.OtherEvent? ==> r == users
  {
    match ev
    case CheckoutSessionCompleted(customer, userId) => CheckoutCompleted(users, customer, userId)
    case SubscriptionCreated(sub) => SubscriptionChanged(users, sub)
    case SubscriptionUpdated(sub) => SubscriptionChanged(users, sub)
    case SubscriptionDeleted(sub) => SubscriptionDeleted(users, sub)
    case PaymentIntentSucceeded(intent) => PaymentSucceeded(users, intent, now)
    case OtherEvent(_) => users
  }

  /** Whether the branch for an event calls the storage layer (and so can
      fail with it). */
  predicate Writes(ev: Event) {
    match ev
    case CheckoutSessionCompleted(customer, userId) => Truthy(userId) || Truthy(StringCustomer(customer))
    case SubscriptionCreated(_) => true
    case SubscriptionUpdated(_) => true
    case SubscriptionDeleted(_) => true
    case PaymentIntentSucceeded(intent) => IntentActs(intent)
    case OtherEvent(_) => false
  }

  /** Every branch is a plain overwrite, so delivering the same event again
      with the same clock leaves the rows as the first delivery did. */
  lemma {:induction false} StepIdempotent(users: map<UserId, Record>, ev: Event, now: int)
    ensures Step(Step(users, ev, now), ev, now) == Step(users, ev, now)
  {
    match ev
    case CheckoutSessionCompleted(customer, userId) =>
      var customerId := StringCustomer(customer);
      if Truthy(userId) {
        UpdateByIdIdempotent(users, userId.value, CheckoutPatch(customerId));
      } else if Truthy(customerId) {
        UpdateByCustomerIdempotent(users, customerId.value, CheckoutByCustomerPatch);
      }
    case SubscriptionCreated(sub) =>
      UpdateByCustomerIdempotent(users, SubscriptionKey(sub), SubscriptionPatch(sub));
    case SubscriptionUpdated(sub) =>
      UpdateByCustomerIdempotent(users, SubscriptionKey(sub), SubscriptionPatch(sub));
    case SubscriptionDeleted(sub) =>
      UpdateByCustomerIdempotent(users, SubscriptionKey(sub), DeletedPatch);
    case PaymentIntentSucceeded(intent) =>
      if IntentActs(intent) {
        UpdateByCustomerIdempotent(users, IntentKey(intent), PwywGrant(IntentAmount(intent), now));
      }
    case OtherEvent(_) =>
  }

  /** An event the storage layer is not asked about changes nothing. */
  lemma StepWithoutWriteIsIdentity(users: map<UserId, Record>, ev: Event, now: int)
    requires !Writes(ev)
    ensures Step(users, ev, now) == users
  {
  }

  const PremiumMessage := "Premium feature. Choose Pro ($9/mo) or Pay-What-You-Want (one-time)."

  /** `hasPremium`: access comes from the stored plan alone. */
  predicate HasPremium(r: Record): (b: bool)
    ensures b <==> r.plan != Free
  {
    r.plan == Pro || r.plan == Pwyw
  }

  /** How each event moves premium access on the rows it writes. */
  lemma PremiumAfterStep(users: map<UserId, Record>, ev: Event, now: int, u: UserId)
    requires u in users
    ensures ev.CheckoutSessionCompleted? && Truthy(ev.metadataUserId) && u == ev.metadataUserId.value ==>
      HasPremium(Step(users, ev, now)[u])
    ensures (ev.SubscriptionCreated? || ev.SubscriptionUpdated?) && HasCustomer(users, u, SubscriptionKey(ev.subscription)) ==>
      (HasPremium(Step(users, ev, now)[u]) <==> ev.subscription.status == "active" || ev.subscription.status == "trialing")
    ensures ev.SubscriptionDeleted? && HasCustomer(users, u, SubscriptionKey(ev.subscription)) ==>
      !HasPremium(Step(users, ev, now)[u])
    ensures ev.PaymentIntentSucceeded? && IntentActs(ev.intent) && HasCustomer(users, u, IntentKey(ev.intent)) ==>
      HasPremium(Step(users, ev, now)[u])
  {
  }

  // ---------------------------------------------------------------------
  // The webhook endpoint

  /** The response of the webhook endpoint. */
  function WebhookOutcome(cfg: Config, delivery: Delivery, fault: bool): (o: Outcome<Record>)
    ensures !PaymentsOn(cfg) ==> o == Respond(200, ReceivedBody)
    ensures PaymentsOn(cfg) && !Truthy(cfg.webhookSecret) ==> o == Respond(500, ErrorBody("Webhook not configured"))
    ensures PaymentsOn(cfg) && Truthy(cfg.webhookSecret) && delivery.SignatureInvalid? ==>
      o == Respond(400, WebhookErrorText)
    ensures PaymentsOn(cfg) && Truthy(cfg.webhookSecret) && delivery.Verified? ==>
      o == if fault && Writes(delivery.event) then Respond(500, ErrorBody("Webhook handler failed"))
           else Respond(200, ReceivedBody)
  {
    if !PaymentsOn(cfg) then Respond(200, ReceivedBody)
    else if !Truthy(cfg.webhookSecret) then Respond(500, ErrorBody("Webhook not configured"))
    else if delivery.SignatureInvalid? then Respond(400, WebhookErrorText)
    else if fault && Writes(delivery.event) then Respond(500, ErrorBody("Webhook handler failed"))
    else Respond(200, ReceivedBody)
  }

  /** The rows after the webhook endpoint: an event is applied only when
      payments are on, a secret is configured, the signature holds, and the
      storage write succeeds; otherwise nothing changes. */
  function WebhookEffect(users: map<UserId, Record>, cfg: Config, delivery: Delivery, now: int, fault: bool)
    : (r: map<UserId, Record>)
    ensures r.Keys == users.Keys
    ensures WebhookOutcome(cfg, delivery, fault) != Respond(200, ReceivedBody) ==> r == users
    ensures !PaymentsOn(cfg) || delivery.SignatureInvalid? ==> r == users
    ensures PaymentsOn(cfg) && Truthy(cfg.webhookSecret) && delivery.Verified? && !(fault && Writes(delivery.event)) ==>
      r == Step(users, delivery.event, now)
  {
    if PaymentsOn(cfg) && Truthy(cfg.webhookSecret) && delivery.Verified? && !(fault && Writes(delivery.event))
    then Step(users, delivery.event, now)
    else users
  }

  /** Replaying a delivery with the same clock changes nothing further. */
  lemma {:induction false} WebhookReplayIdempotent(users: map<UserId, Record>, cfg: Config, delivery: Delivery,
                                                   now: int, fault: bool)
    ensures WebhookEffect(WebhookEffect(users, cfg, delivery, now, fault), cfg, delivery, now, fault)
         == WebhookEffect(users, cfg, delivery, now, fault)
  {
    if delivery.Verified? {
      StepIdempotent(users, delivery.event, now);
    }
  }

  method OnCheckoutSessionCompleted(store: Store, customer: CustomerRef, metadataUserId: Option<string>, fault: bool)
    returns (ok: bool)
    modifies store
    ensures ok <==> !(fault && Writes(CheckoutSessionCompleted(customer, metadataUserId)))
    ensures store.users == if ok then CheckoutCompleted(old(store.users), customer, metadataUserId) else old(store.users)
  {
    var customerId := StringCustomer(customer);
    var userId := metadataUserId;
    if Truthy(userId) {
      if fault { return false; }
      store.UpdateUser(userId.value, CheckoutPatch(customerId));
    } else if Truthy(customerId) {
      if fault { return false; }
      store.UpdateUserByCustomerId(customerId.value, CheckoutByCustomerPatch);
    }
    return true;
  }

  method OnSubscriptionChanged(store: Store, sub: SubscriptionObject, fault: bool) returns (ok: bool)
    modifies store
    ensures ok <==> !fault
    ensures store.users == if ok then SubscriptionChanged(old(store.users), sub) else old(store.users)
  {
    if fault { return false; }
    store.UpdateUserByCustomerId(SubscriptionKey(sub), SubscriptionPatch(sub));
    return true;
  }

  method OnSubscriptionDeleted(store: Store, sub: SubscriptionObject, fault: bool) returns (ok: bool)
    modifies store
    ensures ok <==> !fault
    ensures store.users == if ok then SubscriptionDeleted(old(store.users), sub) else old(store.users)
  {
    if fault { return false; }
    store.UpdateUserByCustomerId(SubscriptionKey(sub), DeletedPatch);
    return true;
  }

  method OnPaymentIntentSucceeded(store: Store, intent: PaymentIntentObject, now: int, fault: bool) returns (ok: bool)
    modifies store
    ensures ok <==> !(fault && IntentActs(intent))
    ensures store.users == if ok then PaymentSucceeded(old(store.users), intent, now) else old(store.users)
  {
    if IntentActs(intent) {
      if fault { return false; }
      store.UpdateUserByCustomerId(IntentKey(intent), PwywGrant(IntentAmount(intent), now));
    }
    return true;
  }

  /** The webhook endpoint.  `fault` stands for a storage call that throws;
      `now` is the clock the payment branch reads. */
  method Webhook(store: Store, cfg: Config, delivery: Delivery, now: int, fault: bool) returns (o: Outcome<Record>)
    modifies store
    ensures o == WebhookOutcome(cfg, delivery, fault)
    ensures store.users == WebhookEffect(old(store.users), cfg, delivery, now, fault)
  {
    if !PaymentsOn(cfg) {
      return Respond(200, ReceivedBody);
    }
    if !Truthy(cfg.webhookSecret) {
      return Respond(500, ErrorBody("Webhook not configured"));
    }
    if delivery.SignatureInvalid? {
      return Respond(400, WebhookErrorText);
    }
    var ok := true;
    match delivery.event {
      case CheckoutSessionCompleted(customer, userId) =>
        ok := OnCheckoutSessionCompleted(store, customer, userId, fault);
      case SubscriptionCreated(sub) =>
        ok := OnSubscriptionChanged(store, sub, fault);
      case SubscriptionUpdated(sub) =>
        ok := OnSubscriptionChanged(store, sub, fault);
      case SubscriptionDeleted(sub) =>
        ok := OnSubscriptionDeleted(store, sub, fault);
      case PaymentIntentSucceeded(intent) =>
        ok := OnPaymentIntentSucceeded(store, intent, now, fault);
      case OtherEvent(_) =>
    }
    if !ok {
      return Respond(500, ErrorBody("Webhook handler failed"));
    }
    return Respond(200, ReceivedBody);
  }

  // ---------------------------------------------------------------------
  // Pay-what-you-want routes

  /** `/pwyw-intent`'s amount: `Math.floor` of a finite number, refused
      (none) when it is not finite or the floor is negative. */
  function IntentCents(amount: Num): (r: Option<int>)
    ensures r.Some? <==> amount.Finite? && amount.x.Floor >= 0
    ensures r.Some? ==> r.value == amount.x.Floor && r.value >= 0
  {
    if amount.Finite? && amount.x.Floor >= 0 then Some(amount.x.Floor) else None
  }

  /** `/pwyw-complete`'s amount: `Math.max(0, Math.floor(Number(a) || 0))`.
      NaN and -Infinity become 0; +Infinity stays infinite and has no
      integer to store (none). */
  function CompleteCents(amount: Num): (r: Option<int>)
    ensures r.None? <==> amount.PosInf?
    ensures r.Some? ==> r.value >= 0
    ensures amount.Finite? && amount.x >= 0.0 ==> r == Some(amount.x.Floor)
    ensures amount.Finite? && amount.x < 0.0 ==> r == Some(0)
    ensures amount.NaN? || amount.NegInf? ==> r == Some(0)
  {
    match amount
    case Finite(x) => Some(if x.Floor < 0 then 0 else x.Floor)
    case NaN => Some(0)
    case NegInf => Some(0)
    case PosInf => None
  }

  /** The two routes store the same amount for every amount the intent
      route accepts; a finite amount it refuses is stored as 0 by the
      completion route. */
  lemma CompleteAgreesWithIntent(amount: Num)
    ensures IntentCents(amount).Some? ==> CompleteCents(amount) == IntentCents(amount)
    ensures amount.Finite? && IntentCents(amount).None? ==> CompleteCents(amount) == Some(0)
  {
  }

  /** The entitlement fields of every row are as they were (the customer id
      and profile fields may differ). */
  predicate SameEntitlements(before: map<UserId, Record>, after: map<UserId, Record>) {
    && before.Keys == after.Keys
    && forall u | u in before ::
         && after[u].plan == before[u].plan
         && after[u].subscriptionStatus == before[u].subscriptionStatus
         && after[u].currentPeriodEnd == before[u].currentPeriodEnd
         && SamePwyw(before[u], after[u])
  }

  /** `/pwyw-intent`.  `fault` stands for storage calls that throw,
      `newId` for the id the processor would give a new customer,
      `failing` for the customer lookups in `ensureCustomer` that throw (by
      attempt), and
      `intentSecret` for the client secret of the created payment intent
      (none when that call throws). */
  method PwywIntent(store: Store, gw: Gateway, cfg: Config, auth: AuthUser, amount: Num, now: int, fault: bool,
                    newId: CustomerId, failing: set<nat>, intentSecret: Option<string>)
    returns (o: Outcome<Record>)
    requires newId !in gw.customers && newId != ""
    modifies store, gw
    // the payments check runs first, then the amount, then the user id; none of them writes
    ensures PaymentsGate(cfg).Some? ==> o == PaymentsGate(cfg).value
    ensures PaymentsGate(cfg).None? && IntentCents(amount).None? ==> o == Respond(400, ErrorBody("Invalid amount"))
    ensures PaymentsGate(cfg).None? && IntentCents(amount).Some? && !Truthy(GetAuthUserId(auth)) ==>
      o == Respond(401, ErrorBody("Unauthorized"))
    ensures PaymentsGate(cfg).Some? || IntentCents(amount).None? || !Truthy(GetAuthUserId(auth)) ==>
      store.users == old(store.users) && gw.customers == old(gw.customers)
    // a zero amount is granted at once, without the processor and without looking the user up
    ensures PaymentsGate(cfg).None? && IntentCents(amount) == Some(0) && Truthy(GetAuthUserId(auth)) ==>
      && gw.customers == old(gw.customers)
      && (fault ==> o == Unhandled && store.users == old(store.users))
      && (!fault ==> o == Respond(200, IntentBody(None, true))
                     && store.users == UpdateById(old(store.users), GetAuthUserId(auth).value, PwywGrant(0, now)))
    // a positive amount grants nothing; it makes sure the user has a live customer and returns the intent
    ensures PaymentsGate(cfg).None? && IntentCents(amount).Some? && IntentCents(amount).value > 0
            && Truthy(GetAuthUserId(auth)) ==>
      var uid := GetAuthUserId(auth).value;
      && SameEntitlements(old(store.users), store.users)
      // at most the caller's customer id changes, and at most one customer is created
      && (forall u | u in old(store.users) && u != uid :: store.users[u] == old(store.users)[u])
      && (uid in old(store.users) ==>
            store.users[uid] == old(store.users)[uid].(stripeCustomerId := store.users[uid].stripeCustomerId))
      && (gw.customers == old(gw.customers)
          || (newId in gw.customers && gw.customers == old(gw.customers)[newId := gw.customers[newId]]))
      && (fault || uid !in old(store.users) ==> store.users == old(store.users) && gw.customers == old(gw.customers))
      && (fault ==> o == Respond(500, ErrorBody("Failed to create payment intent")))
      && (!fault && uid !in old(store.users) ==> o == Respond(404, ErrorBody("User not found")))
      && (!fault && uid in old(store.users) ==>
            && StripeService.StoredCustomerId(store.users, uid).Some?
            && IsLive(gw.customers, StripeService.StoredCustomerId(store.users, uid).value)
            && o == if intentSecret.Some? then Respond(200, IntentBody(intentSecret, false))
                    else Respond(500, ErrorBody("Failed to create payment intent")))
  {
    var gate := PaymentsGate(cfg);
    if gate.Some? {
      return gate.value;
    }
    var cents := IntentCents(amount);
    if cents.None? {
      return Respond(400, ErrorBody("Invalid amount"));
    }
    var userId := GetAuthUserId(auth);
    if !Truthy(userId) {
      return Respond(401, ErrorBody("Unauthorized"));
    }
    var uid := userId.value;
    if cents.value == 0 {
      if fault {
        return Unhandled;
      }
      store.UpdateUser(uid, PwywGrant(0, now));
      return Respond(200, IntentBody(None, true));
    }
    if fault {
      return Respond(500, ErrorBody("Failed to create payment intent"));
    }
    var user := store.GetUser(uid);
    if user.None? {
      return Respond(404, ErrorBody("User not found"));
    }
    var row := user.value;
    var caller := StripeService.CallerUser(Some(uid), None, row.stripeCustomerId, row.email, row.firstName, row.lastName);
    ghost var before := store.users;
    var customer := StripeService.EnsureCustomer(store, gw, caller, newId, failing);
    CustomerIsLiveAfterEnsure(before, store.users, old(gw.customers), gw.customers, uid, row, newId, failing);
    if intentSecret.None? {
      return Respond(500, ErrorBody("Failed to create payment intent"));
    }
    return Respond(200, IntentBody(intentSecret, false));
  }

  /** What `ensureCustomer` promises, specialised to a caller built from the
      user's own row: afterwards the row holds a live customer id and its
      entitlement fields are untouched. */
  lemma CustomerIsLiveAfterEnsure(before: map<UserId, Record>, after: map<UserId, Record>,
                                  customers: map<CustomerId, Customer>, customers': map<CustomerId, Customer>,
                                  uid: UserId, row: Record, newId: CustomerId, failing: set<nat>)
    requires uid != "" && uid in before && before[uid] == row
    requires newId !in customers && newId != ""
    requires var stored := StripeService.StoredCustomerId(before, uid);
      match StripeService.FirstLive(StripeService.Candidates(row.stripeCustomerId, stored), customers, failing, 0)
      case Some(c) =>
        && customers' == customers
        && after == (if Truthy(stored) then before else UpdateById(before, uid, SetCustomer(c)))
      case None =>
        && (exists c :: customers' == customers[newId := c] && !c.deleted)
        && after == UpdateById(before, uid, SetCustomer(newId))
    ensures SameEntitlements(before, after)
    ensures StripeService.StoredCustomerId(after, uid).Some?
    ensures IsLive(customers', StripeService.StoredCustomerId(after, uid).value)
  {
    var stored := StripeService.StoredCustomerId(before, uid);
    var cands := StripeService.Candidates(row.stripeCustomerId, stored);
    match StripeService.FirstLive(cands, customers, failing, 0)
    case Some(c) =>
      assert c in cands;
      assert Truthy(stored) && c == stored.value;
    case None =>
  }

  /** `/pwyw-complete`: no payments check and no amount refusal; the
      clamped amount is granted to the signed-in user. */
  method PwywComplete(store: Store, auth: AuthUser, amount: Num, now: int, fault: bool) returns (o: Outcome<Record>)
    modifies store
    ensures !Truthy(GetAuthUserId(auth)) ==>
      o == Respond(401, ErrorBody("Unauthorized")) && store.users == old(store.users)
    ensures Truthy(GetAuthUserId(auth)) && (fault || CompleteCents(amount).None?) ==>
      o == Respond(500, ErrorBody("Failed to complete payment")) && store.users == old(store.users)
    ensures Truthy(GetAuthUserId(auth)) && !fault && CompleteCents(amount).Some? ==>
      && o == Respond(200, OkBody)
      && store.users == UpdateById(old(store.users), GetAuthUserId(auth).value, PwywGrant(CompleteCents(amount).value, now))
  {
    var userId := GetAuthUserId(auth);
    if !Truthy(userId) {
      return Respond(401, ErrorBody("Unauthorized"));
    }
    var cents := CompleteCents(amount);
    if fault || cents.None? {
      return Respond(500, ErrorBody("Failed to complete payment"));
    }
    store.UpdateUser(userId.value, PwywGrant(cents.value, now));
    return Respond(200, OkBody);
  }

  /** A pay-what-you-want grant on an existing row, whatever route wrote it. */
  lemma PwywGrantEffect(users: map<UserId, Record>, uid: UserId, cents: int, now: int)
    requires uid in users
    ensures PwywGranted(users[uid], UpdateById(users, uid, PwywGrant(cents, now))[uid], cents, now)
    ensures HasPremium(UpdateById(users, uid, PwywGrant(cents, now))[uid])
  {
  }

  // ---------------------------------------------------------------------
  // The premium guard

  /** `requirePremium`.  `fault` stands for a failing user lookup. */
  function RequirePremium(auth: AuthUser, users: map<UserId, Record>, fault: bool): (o: Outcome<Record>)
    ensures !Truthy(GetAuthUserId(auth)) ==> o == Respond(401, MessageBody("Unauthorized"))
    ensures Truthy(GetAuthUserId(auth)) && fault ==> o == Respond(500, ErrorBody("Premium access check failed"))
    ensures Truthy(GetAuthUserId(auth)) && !fault ==>
      var uid := GetAuthUserId(auth).value;
      && (o.CallNext? <==> uid in users && HasPremium(users[uid]))
      && (o.CallNext? ==> o.currentUser == Some(users[uid]))
      && (!o.CallNext? ==> o == Respond(402, UpgradeBody(PremiumMessage, "/billing")))
  {
    var userId := GetAuthUserId(auth);
    if !Truthy(userId) then Respond(401, MessageBody("Unauthorized"))
    else if fault then Respond(500, ErrorBody("Premium access check failed"))
    else if userId.value !in users || !HasPremium(users[userId.value]) then
      Respond(402, UpgradeBody(PremiumMessage, "/billing"))
    else CallNext(Some(users[userId.value]))
  }
}
