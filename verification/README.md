# Billing entitlements of auto-hired, modelled in Dafny

This project models the billing core of the auto-hired job-tracking server and its
amount input:

- the **entitlement reconciler** of `packages/server/billing.ts`: processor webhook
  events (`checkout.session.completed`, `customer.subscription.created/updated/deleted`,
  `payment_intent.succeeded`) and the pay-what-you-want (PWYW) routes overwrite fields of
  user rows; `hasPremium` and `requirePremium` derive access from the stored plan;
- **customer resolution** in `packages/server/stripe.ts` and
  `packages/server/services/billing/customers.ts`: find the user's processor customer,
  or create one and store its id;
- **subscription gating** in `packages/server/services/billing/subscriptions.ts` and
  `packages/server/middleware/requirePro.ts`: a 401/402/next/500 decision taken from the
  processor's first listed subscription;
- the **amount filter** `handleAmountChange` of `src/components/BillingOptions.tsx`.

Modules, one per source file or boundary:

| file | module | contents |
|---|---|---|
| wrappers.dfy | `Wrappers` | `Option`, `Result` |
| http.dfy | `Http` | environment (`Config`), `req.user` (`AuthUser`), `Number(...)` values (`Num`), truthiness, responses (`Outcome`) |
| profiles.dfy | `Profiles` | user rows (`Record`), partial updates (`Patch`), the storage layer (`Store` class over a `map<UserId, Record>`) |
| processor.dfy | `Processor` | processor customers and subscriptions (`Gateway` class over a `map<CustomerId, Customer>`) |
| billing.ts → billing.dfy | `Billing` | webhook branches as functions on the row map, one method per handler over a `Store`, the PWYW routes, the premium guard |
| stripe.ts → stripe_service.dfy | `StripeService` | subscription listing, `createOrRetrieveCustomer`, `ensureCustomer` (a loop over candidates) |
| customers.ts → customers.dfy | `Customers` | the check-then-create variant |
| subscriptions.ts → subscriptions.dfy | `Subscriptions` | `getUserSubscription` |
| requirePro.ts → require_pro.dfy | `RequirePro` | the Pro gate |
| BillingOptions.tsx → amount_input.dfy | `AmountInput` | `handleAmountChange` |

Inputs the source reads from its surroundings are parameters:

- the clock (`new Date()`) is `now`, in milliseconds;
- the environment variables are a `Config` value;
- a verified or refused webhook signature is a `Delivery`;
- a storage call that throws is `fault`;
- the id the processor gives a new customer is `newId`, which the processor promises is unused and not empty;
- whether a `retrieve` call throws although the processor may know the id (a network error, a rate limit) is an input per call: `throws` for the single lookup of `createOrRetrieveCustomer`, and for `ensureCustomer` a set `failing` of the attempt numbers (0 for the first candidate tried, 1 for the second) whose lookup throws;
- the processor's subscription lists are a `map` from customer id to subscriptions.

A customer id the processor does not know makes `retrieve` throw, and so does a lookup marked as throwing. Failure is per attempt: when `ensureCustomer` tries the same id twice, the first lookup may throw and the second succeed (`StripeService.RetryRecovers`).
When such a lookup throws for a live stored customer, `createOrRetrieveCustomer` creates a second customer and overwrites the stored id.
The first customer stays live but no row holds it any more (`StripeService.LookupFailureOrphansCustomer`).

The storage module is not part of this model. Its update calls are modelled this way:

- `updateUser(id, fields)` overwrites exactly the given fields of that row. A field passed as `undefined` is left alone; one passed as `null` is cleared.
- `updateUser` does nothing when no row has that id.
- `updateUserByCustomerId(cid, fields)` does the same on every row whose stored customer id equals `cid`, and nothing when none does.
- A customer that is not a string is looked up as `""` (billing.ts:192, 204).

Two behaviours of the code that one might expect to be otherwise; the model follows the code:

- A row that becomes free keeps its PWYW amount and grant time: `customer.subscription.updated/deleted` never clear them. `SubscriptionChanged` and `SubscriptionDeleted` state this through `SamePwyw`.
- `requirePro` counts a `trialing` status as active. The subscription list it reads asks the processor only for `active` subscriptions, so a trialing-only customer is refused. `Subscriptions.TrialingOnlyIsInactive` states this.

## Model

| member | source | states |
|---|---|---|
| Profiles.Apply | packages/server/billing.ts:168-174 | a partial overwrite: each field given is written, each left out is kept; profile fields never change |
| Profiles.UpdateById | packages/server/billing.ts:82-87 | `updateUser`: only the named row changes, by the patch; the key set is kept; a missing row means no change |
| Profiles.UpdateByCustomer | packages/server/billing.ts:176-181 | `updateUserByCustomerId`: exactly the rows holding the customer id get the patch, all others are kept |
| Profiles.ApplyIdempotent | packages/server/billing.ts:168-174 | applying the same partial overwrite twice equals applying it once |
| Profiles.UpdateByIdIdempotent | packages/server/billing.ts:168-174 | writing the same update to a row twice equals writing it once |
| Profiles.UpdateByCustomerIdempotent | packages/server/billing.ts:192-198 | writing by customer id twice equals once, when the update does not rewrite the customer id |
| Profiles.FindUser | packages/server/stripe.ts:104 | `getUser`: a row is found iff its id is stored, and it is the stored row |
| Profiles.Store.GetUser | packages/server/billing.ts:93 | a row is found iff its id is stored, and it is the stored row |
| Profiles.Store.UpdateUser | packages/server/billing.ts:123-128 | the stored rows become `UpdateById` of the old rows |
| Profiles.Store.UpdateUserByCustomerId | packages/server/billing.ts:204-208 | the stored rows become `UpdateByCustomer` of the old rows |
| Processor.Gateway.Retrieve | packages/server/stripe.ts:109 | the lookup fails iff the processor does not know the id or this lookup throws (`throws`); otherwise it returns that customer, deleted or not |
| Processor.Gateway.Create | packages/server/stripe.ts:118-124 | exactly one customer is added, live, with the given email, name and user id, under the new id |
| Billing.PaymentsGate | packages/server/billing.ts:10-22 | disabled payments give 400 before a missing key gives 500; the request goes on iff payments are on and a key is set |
| Billing.GetAuthUserId | packages/server/billing.ts:24-27 | `sub` whenever present, even empty; `id` only when `sub` is missing |
| Billing.StringCustomer | packages/server/billing.ts:164 | an id iff the customer field is a string, and then that string |
| Billing.SubscriptionKey | packages/server/billing.ts:188-192 | `customerId ?? ""`: the id when the customer is a string, else the empty id |
| Billing.CheckoutCompleted | packages/server/billing.ts:162-184 | a non-empty metadata user id makes that row pro/active with PWYW fields cleared, and stores a string customer id; other rows are kept. Without it, rows holding a non-empty string customer id get the same fields with their customer id kept. With neither, nothing changes |
| Billing.PlanForStatus | packages/server/billing.ts:190 | pro iff the status is active or trialing, free otherwise, never pwyw |
| Billing.PeriodEndMillis | packages/server/billing.ts:195-197 | null iff the period end is missing or 0, otherwise seconds × 1000 |
| Billing.SubscriptionChanged | packages/server/billing.ts:185-199 | rows with the customer id become pro iff the status is active or trialing (else free). They store the status verbatim and the converted period end, and keep their PWYW fields and customer id. Other rows are kept |
| Billing.SubscriptionDeleted | packages/server/billing.ts:201-209 | rows with the customer id become free/canceled with no period end, keeping their PWYW fields; other rows are kept |
| Billing.IntentHasCustomer | packages/server/billing.ts:213 | `intent.customer` is truthy iff it is present and not the empty id |
| Billing.IntentKey | packages/server/billing.ts:218 | `String(intent.customer)`: the id for a string customer, "[object Object]" for an expanded one, "undefined" for none; never empty when a customer is present |
| Billing.IntentActs | packages/server/billing.ts:213 | the branch acts iff the kind is "pwyw" and the customer is truthy; then its key is never empty |
| Billing.IntentAmount | packages/server/billing.ts:214-216 | `amount_received` when numeric, else `amount`, else 0 |
| Billing.PaymentSucceeded | packages/server/billing.ts:211-225 | nothing changes unless the kind is "pwyw" and a customer is present. Then rows with that customer become pwyw with status null, the amount, and `now`; period end and customer id are kept |
| Billing.Step | packages/server/billing.ts:160-230 | the switch keeps the key set, and an unknown event type changes nothing |
| Billing.HasPremium | packages/server/billing.ts:240-242 | holds iff the plan is pro or pwyw, i.e. iff it is not free |
| Billing.StepIdempotent | packages/server/billing.ts:160-230 | replaying any event with the same `now` leaves the rows as one delivery did |
| Billing.StepWithoutWriteIsIdentity | packages/server/billing.ts:227-229 | an event whose branch makes no storage call changes no row |
| Billing.PremiumAfterStep | packages/server/billing.ts:240-242 | after checkout the named row has premium. After a subscription change a matched row has premium iff the status is active or trialing. After a deletion it has none; after a PWYW payment it has premium |
| Billing.WebhookOutcome | packages/server/billing.ts:137-238 | disabled payments → 200 received; no secret → 500; bad signature → 400; a failing write → 500; otherwise 200 received |
| Billing.WebhookEffect | packages/server/billing.ts:141-236 | rows change only when a verified event is processed; any other response leaves them as they were |
| Billing.WebhookReplayIdempotent | packages/server/billing.ts:160-232 | delivering the same webhook twice with the same `now` equals delivering it once |
| Billing.Webhook | packages/server/billing.ts:137-238 | the endpoint's response is `WebhookOutcome` and the new rows are `WebhookEffect` of the old |
| Billing.OnCheckoutSessionCompleted | packages/server/billing.ts:162-184 | fails only when a write is issued and storage throws; otherwise the rows become `CheckoutCompleted` of the old |
| Billing.OnSubscriptionChanged | packages/server/billing.ts:185-199 | fails iff storage throws; otherwise the rows become `SubscriptionChanged` of the old |
| Billing.OnSubscriptionDeleted | packages/server/billing.ts:201-209 | fails iff storage throws; otherwise the rows become `SubscriptionDeleted` of the old |
| Billing.OnPaymentIntentSucceeded | packages/server/billing.ts:211-225 | fails only when the intent acts and storage throws; otherwise the rows become `PaymentSucceeded` of the old |
| Billing.IntentCents | packages/server/billing.ts:68-74 | accepted iff the amount is finite with a non-negative floor; the value is that floor |
| Billing.CompleteCents | packages/server/billing.ts:126 | never negative. A finite amount gives `max(0, floor)`; NaN and -Infinity give 0; only +Infinity has no integer |
| Billing.CompleteAgreesWithIntent | packages/server/billing.ts:66-128 | both routes store the same amount for any amount `/pwyw-intent` accepts; a finite amount it refuses is stored as 0 by `/pwyw-complete` |
| Billing.PwywIntent | packages/server/billing.ts:65-113 | checks run in order: payments, then amount (400), then user (401), none writing. A zero amount grants pwyw with 0 at `now`, without the processor or a user lookup. A positive amount leaves entitlements as they were: other rows are untouched, the caller's row changes at most in its customer id, and at most one customer (`newId`) is created. It answers 404 or 500 on a missing user or fault, and otherwise leaves the row holding a live customer id |
| Billing.CustomerIsLiveAfterEnsure | packages/server/billing.ts:93-98 | `ensureCustomer` on the user's own row keeps entitlement fields and leaves a stored customer id the processor has live |
| Billing.PwywComplete | packages/server/billing.ts:115-135 | without a payments check: 401 without a user; 500 with no change on a storage fault or +Infinity; otherwise 200 and a pwyw grant of the clamped amount |
| Billing.PwywGrantEffect | packages/server/billing.ts:82-87 | a PWYW grant on an existing row sets plan pwyw, status null, the amount and `now`, and gives premium |
| Billing.RequirePremium | packages/server/billing.ts:244-267 | 401 without a user id; 500 on a lookup fault. Otherwise `next()` with the row as current user iff the row exists with plan pro or pwyw, else 402 with upgrade URL "/billing" |
| StripeService.ActiveOnly | packages/server/stripe.ts:81-84 | the result holds exactly the active subscriptions of the list, is no longer than it, and starts with the list's first active subscription |
| StripeService.ActiveOnlyConcat | packages/server/stripe.ts:81-84 | the filter distributes over concatenation, so it keeps the list's order |
| StripeService.GetCustomerSubscriptions | packages/server/stripe.ts:79-90 | a failed lookup gives `[]`; otherwise every active subscription of that customer is returned, only subscriptions of that customer are, and the first one returned is the first active one listed |
| StripeService.HasActiveSubscription | packages/server/stripe.ts:95-98 | true iff the list call succeeds and holds an active subscription |
| StripeService.CreateOrRetrieveCustomer | packages/server/stripe.ts:103-129 | a stored non-empty id whose lookup succeeds on a live customer is returned, with no create and no write. Otherwise (missing, unknown, deleted, or a lookup that throws) one customer is created and its id overwrites the stored one |
| StripeService.LookupFailureOrphansCustomer | packages/server/stripe.ts:107-126 | when the lookup of a live stored customer throws, a new customer replaces the stored id, and the old customer stays live with no row holding it |
| StripeService.CallerUserId | packages/server/stripe.ts:135 | `id` when non-empty, else `sub`; truthy iff either is |
| StripeService.Candidates | packages/server/stripe.ts:141 | only the caller's and the stored id, each once and only when non-empty, the caller's first: the length is the number of non-empty ids |
| StripeService.FirstLive | packages/server/stripe.ts:143-155 | none iff no attempt from the given one on returns a live customer; otherwise the candidate of the first attempt that does; an attempt fails iff its candidate is unknown or deleted or its number is in `failing` |
| StripeService.RetryRecovers | packages/server/stripe.ts:141-155 | a stored id passed in and read back is tried twice, and when only the first lookup throws the retry returns it |
| StripeService.DisplayName | packages/server/stripe.ts:158-160 | "first last" from the non-empty names; undefined iff both are empty |
| StripeService.NewCustomer | packages/server/stripe.ts:157-160 | the new customer carries the user id and is live; its email is the caller's when given, else the stored row's; its name is `DisplayName` of the first and last names, each taken from the caller when given, else from the stored row, else "" |
| StripeService.EnsureCustomer | packages/server/stripe.ts:134-171 | throws before any call without a user id. Returns the candidate of the first attempt that returns a live customer (a throwing attempt is skipped), writing it only when no id was stored. With no such attempt it creates one customer from the caller's, then the stored, email and names, and stores its id |
| Customers.CreateOrRetrieveCustomer | packages/server/services/billing/customers.ts:6-14 | a stored non-empty id is returned, with no processor call and no write, live or not. Otherwise exactly one customer with the email and user id is created and its id written to the row |
| Customers.CallTwice | packages/server/services/billing/customers.ts:8-13 | for a user with a row, the second call returns the first's id and creates nothing more |
| Customers.CallTwiceWithoutRow | packages/server/services/billing/customers.ts:12 | without a row the write is lost, so each call creates a customer |
| Subscriptions.PlanForPrice | packages/server/services/billing/subscriptions.ts:37-39 | yearly iff the price is the yearly id (so it wins a tie); monthly iff it is the monthly id but not the yearly one; otherwise none |
| Subscriptions.Summarize | packages/server/services/billing/subscriptions.ts:34-45 | fails iff the subscription has no item; active iff the status is active or trialing; period end null iff 0, else passed through |
| Subscriptions.GetUserSubscription | packages/server/services/billing/subscriptions.ts:12-46 | payments off → inactive whatever else; no stored id or an empty list → inactive; otherwise only the first listed subscription decides |
| Subscriptions.ActiveIffListedActive | packages/server/services/billing/subscriptions.ts:28-42 | reported active iff payments are on, an id is stored, and the processor lists an active subscription for it |
| Subscriptions.TrialingOnlyIsInactive | packages/server/services/billing/subscriptions.ts:42 | a customer with only trialing subscriptions is reported inactive |
| RequirePro.ProUserId | packages/server/middleware/requirePro.ts:8 | `sub` when non-empty, else `id` |
| RequirePro.RequirePro | packages/server/middleware/requirePro.ts:4-23 | 401 without a user id, with no subscription lookup; 500 when the lookup fails; 402 "Pro required" when inactive; `next()` when active |
| RequirePro.PassesIffActiveSubscription | packages/server/middleware/requirePro.ts:14-19 | the gate passes iff payments are on, the row holds a customer id and that customer has an active subscription |
| RequirePro.RequireProIgnoresPlan | packages/server/middleware/requirePro.ts:14-17 | rewriting any row's stored plan never changes the outcome |
| RequirePro.PwywUserRefused | packages/server/middleware/requirePro.ts:14-17 | a pwyw user without a customer passes `requirePremium` but gets 402 from `requirePro` |
| RequirePro.UserIdRulesDiffer | packages/server/middleware/requirePro.ts:8 | the `||` rule and billing.ts's `??` rule differ exactly when `sub` is empty and `id` is not |
| AmountInput.Strip | src/components/BillingOptions.tsx:33 | the kept text has only digits and dots and is no longer than the input |
| AmountInput.StripSingle | src/components/BillingOptions.tsx:33 | a single character is kept iff it is a digit or a dot; with `StripConcat` this fixes the result on every input |
| AmountInput.StripKeepsAllowed | src/components/BillingOptions.tsx:33 | text of digits and dots passes through unchanged |
| AmountInput.StripIdempotent | src/components/BillingOptions.tsx:33 | stripping a stripped string changes nothing |
| AmountInput.StripConcat | src/components/BillingOptions.tsx:33 | stripping works character by character: it distributes over concatenation |
| AmountInput.Split | src/components/BillingOptions.tsx:35 | at least one part, no part holds a dot, and a string without a dot is its own single part |
| AmountInput.SplitShape | src/components/BillingOptions.tsx:35 | the first part is the text before the first dot; the later parts are the split of the text after that dot |
| AmountInput.JoinSplit | src/components/BillingOptions.tsx:35 | joining the parts with dots gives back the string |
| AmountInput.HeadLongerThanTwo | src/components/BillingOptions.tsx:36 | a first part longer than two iff the text starts with three non-dots |
| AmountInput.RejectsIffLongSecondPart | src/components/BillingOptions.tsx:35-36 | the split test refuses iff at least three non-dot characters follow the first dot |
| AmountInput.HandleAmountChange | src/components/BillingOptions.tsx:31-38 | a refused edit keeps the old amount; otherwise the amount becomes the stripped input. An amount of digits and dots without a long second part stays so |
| AmountInput.SeveralDotsAccepted | src/components/BillingOptions.tsx:35-36 | "1.5.999" is accepted: a second dot alone is no reason to refuse |
| AmountInput.ThirdDecimalRefused | src/components/BillingOptions.tsx:36 | "$12.505" is refused and the amount "12.5" stays |

## Left out

- The `/checkout` route (billing.ts:29-63): it creates a checkout session through the processor's SDK. Its only effect on user rows is `ensureCustomer`, which is modelled.
- Processor SDK internals: signature verification, checkout, billing portal and payment intent creation. A signature is a verified/refused input, and a created intent is its client secret (none when the call throws).
- `StripeService.createCheckoutSession`, `createPortalSession`, `getCustomer`, `createPaymentIntent` and `constructWebhookEvent`: these only wrap SDK calls.
- Two parts of stripe.ts are not modelled: the module-level throw when no secret key is set (stripe.ts:4-6), and the statements after the end of `ensureCustomer` (stripe.ts:173-184), which belong to no function.
- Storage failures inside customer resolution are not modelled; the storage calls of `createOrRetrieveCustomer`, `ensureCustomer` and the check-then-create variant always succeed. In the source, a failing read or final write propagates as an exception. The write of a found candidate (stripe.ts:148) is the exception: it sits inside the `try` at stripe.ts:144-154, so its failure is caught like a failed lookup and the loop moves on to the next candidate. A storage fault is modelled only where a billing handler catches it, or where it escapes the zero-amount branch of `/pwyw-intent` (`Unhandled`).
- StripeService.CreateOrRetrieveCustomer, StripeService.EnsureCustomer and Customers.CreateOrRetrieveCustomer: processor customer creation (stripe.ts:118, stripe.ts:162, customers.ts:10) is taken never to throw. In the source such a failure propagates with nothing written; `Processor.Gateway.Create` always succeeds.
- Billing.PwywIntent: customer creation inside `ensureCustomer` is taken never to throw; only the payment intent call can fail (500). An intent created with a null client secret (a 200 carrying null) is not told apart from a failed call.
- Billing.PwywComplete: storing +Infinity is modelled as a failed write (500, no change). The row holds integers, and what the store does with a non-finite number is not part of this model.
- `Number(...)` conversion of the JSON body: the model takes the number it yields (`Num`).
- Concurrency and ordering: each call runs alone. Check-then-create races and out-of-order webhook delivery are not modelled.
- Logging (`console.*`) and the text of error messages that carry `error.message`.
- The React pages, hooks, `src/lib/stripe.ts`, and the UI's floating-point conversion of the amount to cents (`parseFloat`, `Math.round`, `toFixed`).
- The rest of the server (`routes.ts`): CRUD routes, sample data and mock billing routes.
