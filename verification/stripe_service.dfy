/** `StripeService` of packages/server/stripe.ts: listing a customer's
    active subscriptions, and the two ways it finds or creates the processor
    customer of a user.  The service has no state of its own; it works on
    the storage layer and on the processor, both handed in. */
module StripeService {
  import opened Wrappers
  import opened Http
  import opened Profiles
  import opened Processor

  /** The subscriptions of a list whose status is "active", in order (the
      `status: 'active'` filter of the list call). */
  function ActiveOnly(subs: seq<Subscription>): (r: seq<Subscription>)
    ensures |r| <= |subs|
    ensures forall s | s in r :: s in subs && s.status == "active"
    ensures forall s | s in subs && s.status == "active" :: s in r
    // the order is kept: the first active subscription of the list comes first
    ensures forall i | 0 <= i < |subs| && subs[i].status == "active" &&
                       (forall j | 0 <= j < i :: subs[j].status != "active") ::
              r != [] && r[0] == subs[i]
  {
    if subs == [] then []
    else (if subs[0].status == "active" then [subs[0]] else []) + ActiveOnly(subs[1..])
  }

  /** Filtering works element by element: it distributes over
      concatenation, so the filtered list keeps the order of the input. */
  lemma {:induction false} ActiveOnlyConcat(a: seq<Subscription>, b: seq<Subscription>)
    ensures ActiveOnly(a + b) == ActiveOnly(a) + ActiveOnly(b)
  {
    if a == [] {
      assert a + b == b;
    } else {
      assert (a + b)[0] == a[0];
      assert (a + b)[1..] == a[1..] + b;
      ActiveOnlyConcat(a[1..], b);
    }
  }

  /** `getCustomerSubscriptions`: the active subscriptions of the customer;
      a list call that fails (the customer has no entry in `listing`) gives
      the empty list. */
  function GetCustomerSubscriptions(listing: map<CustomerId, seq<Subscription>>, cid: CustomerId): (r: seq<Subscription>)
    ensures cid !in listing ==> r == []
    ensures forall s | s in r :: s.status == "active"
    ensures cid in listing ==> forall s | s in listing[cid] && s.status == "active" :: s in r
    ensures cid in listing ==> forall s | s in r :: s in listing[cid]
    ensures cid in listing ==> forall i | 0 <= i < |listing[cid]| && listing[cid][i].status == "active" &&
                                          (forall j | 0 <= j < i :: listing[cid][j].status != "active") ::
              r != [] && r[0] == listing[cid][i]
  {
    if cid in listing then ActiveOnly(listing[cid]) else []
  }

  /** `hasActiveSubscription`: true exactly when the processor lists an
      active subscription for the customer. */
  function HasActiveSubscription(listing: map<CustomerId, seq<Subscription>>, cid: CustomerId): (b: bool)
    ensures b <==> cid in listing && exists s | s in listing[cid] :: s.status == "active"
  {
    var subs := GetCustomerSubscriptions(listing, cid);
    assert cid in listing && |subs| > 0 ==> subs[0] in listing[cid];
    |subs| > 0
  }

  /** The customer id stored on a user row; none when there is no row. */
  function StoredCustomerId(users: map<UserId, Record>, uid: UserId): Option<CustomerId> {
    match FindUser(users, uid)
    case Some(row) => row.stripeCustomerId
    case None => None
  }

  /** `createOrRetrieveCustomer` (stripe.ts): a stored id whose customer the
      processor returns undeleted is reused with no create and no write; a
      missing or empty stored id, a deleted customer, or a lookup that throws
      (an unknown id, or `throws`) all lead to one new customer
      whose id replaces the stored one. */
  method CreateOrRetrieveCustomer(store: Store, gw: Gateway, userId: UserId, email: Option<string>,
                                  name: Option<string>, newId: CustomerId, throws: bool)
    returns (cid: CustomerId)
    requires newId !in gw.customers && newId != ""
    modifies store, gw
    ensures var stored := StoredCustomerId(old(store.users), userId);
      if Truthy(stored) && IsLive(old(gw.customers), stored.value) && !throws then
        cid == stored.value && store.users == old(store.users) && gw.customers == old(gw.customers)
      else
        && cid == newId
        && gw.customers == old(gw.customers)[newId := Customer(email, name, userId, false)]
        && store.users == UpdateById(old(store.users), userId, SetCustomer(newId))
  {
    var user := store.GetUser(userId);
    var existingId := if user.Some? then user.value.stripeCustomerId else None;
    if Truthy(existingId) {
      var found := gw.Retrieve(existingId.value, throws);
      if found.Retrieved? && !found.customer.deleted {
        return existingId.value;
      }
    }
    cid := gw.Create(email, name, userId, newId);
    store.UpdateUser(userId, SetCustomer(cid));
  }

  /** A lookup that throws for a customer the processor still has live: a
      second customer is created and replaces the stored id, so the first
      customer, still live, is held by no row (and the webhooks for its
      subscriptions match nothing). */
  method LookupFailureOrphansCustomer(store: Store, gw: Gateway, userId: UserId, email: Option<string>,
                                      name: Option<string>, newId: CustomerId)
    returns (cid: CustomerId)
    requires newId !in gw.customers && newId != ""
    requires userId in store.users && Truthy(store.users[userId].stripeCustomerId)
    requires IsLive(gw.customers, store.users[userId].stripeCustomerId.value)
    requires forall u | u in store.users && u != userId ::
               store.users[u].stripeCustomerId != store.users[userId].stripeCustomerId
    modifies store, gw
    ensures cid == newId && cid != old(store.users[userId].stripeCustomerId.value)
    ensures IsLive(gw.customers, old(store.users[userId].stripeCustomerId.value))
    ensures userId in store.users && store.users[userId].stripeCustomerId == Some(newId)
    ensures forall u | u in store.users :: store.users[u].stripeCustomerId != old(store.users[userId].stripeCustomerId)
  {
    cid := CreateOrRetrieveCustomer(store, gw, userId, email, name, newId, true);
  }

  /** The `user` object handed to `ensureCustomer`: the signed-in user or a
      user row spread with its id. */
  datatype CallerUser = CallerUser(
    id: Option<string>,
    sub: Option<string>,
    stripeCustomerId: Option<CustomerId>,
    email: Option<string>,
    firstName: Option<string>,
    lastName: Option<string>)

  /** `user?.id || user?.claims?.sub`: an empty id falls through to `sub`. */
  function CallerUserId(user: CallerUser): (r: Option<string>)
    ensures Truthy(r) <==> Truthy(user.id) || Truthy(user.sub)
    ensures Truthy(user.id) ==> r == user.id
    ensures !Truthy(user.id) ==> r == user.sub
  {
    if Truthy(user.id) then user.id else user.sub
  }

  /** `a ?? b` on optional values. */
  function Coalesce<T>(a: Option<T>, b: Option<T>): (r: Option<T>)
    ensures a.Some? ==> r == a
    ensures a.None? ==> r == b
  {
    if a.Some? then a else b
  }

  /** The customer ids `ensureCustomer` tries, in order: the caller's, then
      the stored one, each only when it is not empty. */
  function Candidates(callerId: Option<CustomerId>, storedId: Option<CustomerId>): (r: seq<CustomerId>)
    ensures forall c | c in r :: c != ""
    ensures (Truthy(callerId) || Truthy(storedId)) <==> |r| > 0
    ensures Truthy(callerId) ==> r[0] == callerId.value
    ensures Truthy(storedId) ==> r[|r| - 1] == storedId.value
    ensures |r| == (if Truthy(callerId) then 1 else 0) + (if Truthy(storedId) then 1 else 0)
    ensures forall c | c in r :: Some(c) == callerId || Some(c) == storedId
    ensures Truthy(callerId) && Truthy(storedId) ==> |r| == 2
  {
    (if Truthy(callerId) then [callerId.value] else []) + (if Truthy(storedId) then [storedId.value] else [])
  }

  /** The first candidate the processor returns undeleted; the lookups of
      the attempts whose index is in `failing` throw. */
  predicate Succeeds(cands: seq<CustomerId>, customers: map<CustomerId, Customer>, failing: set<nat>, i: nat)
    requires i < |cands|
  {
    IsLive(customers, cands[i]) && i !in failing
  }

  /** The first candidate, from attempt `from` on, whose lookup returns a
      live customer.  Failure is per attempt: a candidate listed twice is
      looked up twice, and the second lookup may succeed. */
  function FirstLive(cands: seq<CustomerId>, customers: map<CustomerId, Customer>, failing: set<nat>, from: nat)
    : (r: Option<CustomerId>)
    requires from <= |cands|
    ensures r.None? <==> forall i | from <= i < |cands| :: !Succeeds(cands, customers, failing, i)
    ensures r.Some? ==> exists i | from <= i < |cands| ::
      && cands[i] == r.value
      && Succeeds(cands, customers, failing, i)
      && forall j | from <= j < i :: !Succeeds(cands, customers, failing, j)
    decreases |cands| - from
  {
    if from == |cands| then None
    else if Succeeds(cands, customers, failing, from) then Some(cands[from])
    else
      FirstLive(cands, customers, failing, from + 1)
  }

  /** A stored id passed in by the caller and read again from the row is
      tried twice; when only the first lookup throws, the retry finds it. */
  lemma RetryRecovers(x: CustomerId, customers: map<CustomerId, Customer>)
    requires x != "" && IsLive(customers, x)
    ensures Candidates(Some(x), Some(x)) == [x, x]
    ensures FirstLive([x, x], customers, {0}, 0) == Some(x)
  {
  }

  /** Strings joined with single spaces. */
  function JoinSpace(parts: seq<string>): string {
    if |parts| == 0 then ""
    else if |parts| == 1 then parts[0]
    else parts[0] + " " + JoinSpace(parts[1..])
  }

  /** `[firstName, lastName].filter(Boolean).join(' ') || undefined`. */
  function DisplayName(first: string, last: string): (r: Option<string>)
    ensures r.None? <==> first == "" && last == ""
    ensures first != "" && last != "" ==> r == Some(first + " " + last)
    ensures first != "" && last == "" ==> r == Some(first)
    ensures first == "" && last != "" ==> r == Some(last)
  {
    var parts := (if first != "" then [first] else []) + (if last != "" then [last] else []);
    var joined := JoinSpace(parts);
    assert |parts| == 2 ==> JoinSpace(parts[1..]) == parts[1];
    if joined == "" then None else Some(joined)
  }

  /** The email and name a customer created by `ensureCustomer` gets: the
      caller's values first, the stored row's next. */
  function NewCustomer(user: CallerUser, stored: Option<Record>, uid: UserId): (c: Customer)
    ensures c.userId == uid && !c.deleted
    ensures user.email.Some? ==> c.email == user.email
    ensures user.email.None? ==> c.email == (if stored.Some? then stored.value.email else None)
    ensures Truthy(user.firstName) && Truthy(user.lastName) ==>
      c.name == Some(user.firstName.value + " " + user.lastName.value)
    ensures user.firstName.Some? && user.lastName.Some? ==>
      (c.name.None? <==> user.firstName.value == "" && user.lastName.value == "")
    // each name from the caller when given, else from the stored row, else ""
    ensures c.name == DisplayName(
      Coalesce(user.firstName, if stored.Some? then stored.value.firstName else None).GetOr(""),
      Coalesce(user.lastName, if stored.Some? then stored.value.lastName else None).GetOr(""))
  {
    var email := Coalesce(user.email, if stored.Some? then stored.value.email else None);
    var first := Coalesce(user.firstName, if stored.Some? then stored.value.firstName else None).GetOr("");
    var last := Coalesce(user.lastName, if stored.Some? then stored.value.lastName else None).GetOr("");
    Customer(email, DisplayName(first, last), uid, false)
  }

  const MissingUserId := "User id is required to ensure a Stripe customer"

  /** `ensureCustomer`.  A candidate whose lookup throws (an id in
      attempt whose index is in `failing`) is skipped like a deleted one. */
  method EnsureCustomer(store: Store, gw: Gateway, user: CallerUser, newId: CustomerId, failing: set<nat>)
    returns (r: Result<CustomerId, string>)
    requires newId !in gw.customers && newId != ""
    modifies store, gw
    // without a user id it throws before touching storage or the processor
    ensures !Truthy(CallerUserId(user)) ==>
      r == Failure(MissingUserId) && store.users == old(store.users) && gw.customers == old(gw.customers)
    ensures Truthy(CallerUserId(user)) ==>
      var uid := CallerUserId(user).value;
      var stored := StoredCustomerId(old(store.users), uid);
      match FirstLive(Candidates(user.stripeCustomerId, stored), old(gw.customers), failing, 0)
      // a live candidate is returned; it is written only when nothing was stored
      case Some(c) =>
        && r == Success(c)
        && gw.customers == old(gw.customers)
        && store.users == (if Truthy(stored) then old(store.users)
                           else UpdateById(old(store.users), uid, SetCustomer(c)))
      // no live candidate: one new customer, whose id is stored
      case None =>
        && r == Success(newId)
        && gw.customers == old(gw.customers)[newId := NewCustomer(user, FindUser(old(store.users), uid), uid)]
        && store.users == UpdateById(old(store.users), uid, SetCustomer(newId))
  {
    var userId := CallerUserId(user);
    if !Truthy(userId) {
      return Failure(MissingUserId);
    }
    var uid := userId.value;
    var storedUser := store.GetUser(uid);
    var storedId := if storedUser.Some? then storedUser.value.stripeCustomerId else None;
    var candidates := Candidates(user.stripeCustomerId, storedId);

    var i := 0;
    while i < |candidates|
      invariant 0 <= i <= |candidates|
      invariant FirstLive(candidates, gw.customers, failing, 0) == FirstLive(candidates, gw.customers, failing, i)
      invariant store.users == old(store.users) && gw.customers == old(gw.customers)
    {
      var found := gw.Retrieve(candidates[i], i in failing);
      if found.Retrieved? && !found.customer.deleted {
        if !Truthy(storedId) {
          store.UpdateUser(uid, SetCustomer(candidates[i]));
        }
        return Success(candidates[i]);
      }
      i := i + 1;
    }

    var c := NewCustomer(user, storedUser, uid);
    var cid := gw.Create(c.email, c.name, uid, newId);
    store.UpdateUser(uid, SetCustomer(cid));
    return Success(cid);
  }
}
