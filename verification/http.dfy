/** What the request handlers see of the outside world: the environment
    variables they read, the authenticated user Passport attached to the
    request, JavaScript truthiness of an optional string, the numbers that
    `Number(...)` can produce, and the responses they write. */
module Http {
  import opened Wrappers

  /** The environment variables of packages/server/env.d.ts, read once. */
  datatype Config = Config(
    paymentsEnabled: Option<string>,   // PAYMENTS_ENABLED
    secretKey: Option<string>,         // STRIPE_SECRET_KEY
    webhookSecret: Option<string>,     // STRIPE_WEBHOOK_SECRET
    monthlyPriceId: Option<string>,    // STRIPE_PRO_MONTHLY_PRICE_ID
    yearlyPriceId: Option<string>)     // STRIPE_PRO_YEARLY_PRICE_ID

  /** Payments count as enabled only for the exact string "true". */
  predicate PaymentsOn(cfg: Config) {
    cfg.paymentsEnabled == Some("true")
  }

  /** An optional string is truthy when it is present and not empty. */
  predicate Truthy(s: Option<string>) {
    s.Some? && s.value != ""
  }

  /** `req.user`: `claims.sub` and `id`, either possibly missing.  A request
      without a user is `AuthUser(None, None)`. */
  datatype AuthUser = AuthUser(sub: Option<string>, id: Option<string>)

  /** The value `Number(x)` produces for a request body field. */
  datatype Num = Finite(x: real) | NaN | PosInf | NegInf

  /** The JSON (or text) bodies the handlers send. */
  datatype Body =
    | ReceivedBody                                  // { received: true }
    | ErrorBody(error: string)                      // { error }
    | MessageBody(message: string)                  // { message }
    | UpgradeBody(message: string, upgradeUrl: string)
    | IntentBody(clientSecret: Option<string>, granted: bool)
    | OkBody                                        // { ok: true }
    | WebhookErrorText                              // `Webhook error: ...`

  /** How a handler ends: a response, a call to `next()` (with what it put in
      `req.currentUser`), or an exception that escapes the handler. */
  datatype Outcome<+U> =
    | Respond(status: nat, body: Body)
    | CallNext(currentUser: Option<U>)
    | Unhandled
}
