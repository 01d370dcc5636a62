/** The user rows the billing code reads and writes through `storage` and
    `db`.  The storage module itself is not part of this model; its two
    update calls are given the meaning the billing code relies on:
    `updateUser(id, fields)` overwrites exactly the fields it is given
    (a field passed as `undefined` is left alone, one passed as `null` is
    cleared) on the row with that id, and does nothing when there is no such
    row; `updateUserByCustomerId(cid, fields)` does the same on every row
    whose stored customer id equals `cid`, and nothing when none does. */
module Profiles {
  import opened Wrappers

  type UserId = string
  type CustomerId = string

  datatype Plan = Free | Pro | Pwyw

  /** The billing columns of a user row, plus the profile columns that
      customer creation reads.  Times are milliseconds since the epoch. */
  datatype Record = Record(
    stripeCustomerId: Option<CustomerId>,
    plan: Plan,
    subscriptionStatus: Option<string>,
    currentPeriodEnd: Option<int>,
    pwywAmountCents: Option<int>,
    pwywGrantedAt: Option<int>,
    email: Option<string>,
    firstName: Option<string>,
    lastName: Option<string>)

  /** One field of an update: left alone (`undefined`) or overwritten. */
  datatype Field<T> = Keep | Put(value: T) {
    function Over(current: T): (r: T)
      ensures Keep? ==> r == current
      ensures Put? ==> r == value
    {
      if Put? then value else current
    }
  }

  /** The fields an update call may carry. */
  datatype Patch = Patch(
    stripeCustomerId: Field<Option<CustomerId>>,
    plan: Field<Plan>,
    subscriptionStatus: Field<Option<string>>,
    currentPeriodEnd: Field<Option<int>>,
    pwywAmountCents: Field<Option<int>>,
    pwywGrantedAt: Field<Option<int>>)

  const NoChange: Patch := Patch(Keep, Keep, Keep, Keep, Keep, Keep)

  /** An update that writes only the customer id. */
  function SetCustomer(cid: CustomerId): Patch {
    NoChange.(stripeCustomerId := Put(Some(cid)))
  }

  /** The row after a partial overwrite. */
  function Apply(r: Record, p: Patch): (r': Record)
    ensures r'.stripeCustomerId == p.stripeCustomerId.Over(r.stripeCustomerId)
    ensures r'.plan == p.plan.Over(r.plan)
    ensures r'.subscriptionStatus == p.subscriptionStatus.Over(r.subscriptionStatus)
    ensures r'.currentPeriodEnd == p.currentPeriodEnd.Over(r.currentPeriodEnd)
    ensures r'.pwywAmountCents == p.pwywAmountCents.Over(r.pwywAmountCents)
    ensures r'.pwywGrantedAt == p.pwywGrantedAt.Over(r.pwywGrantedAt)
    ensures r'.email == r.email && r'.firstName == r.firstName && r'.lastName == r.lastName
  {
    Record(
      p.stripeCustomerId.Over(r.stripeCustomerId),
      p.plan.Over(r.plan),
      p.subscriptionStatus.Over(r.subscriptionStatus),
      p.currentPeriodEnd.Over(r.currentPeriodEnd),
      p.pwywAmountCents.Over(r.pwywAmountCents),
      p.pwywGrantedAt.Over(r.pwywGrantedAt),
      r.email, r.firstName, r.lastName)
  }

  /** `updateUser`: the named row gets the patch, every other row is kept. */
  function UpdateById(users: map<UserId, Record>, uid: UserId, p: Patch): (r: map<UserId, Record>)
    ensures r.Keys == users.Keys
    ensures uid in users ==> r[uid] == Apply(users[uid], p)
    ensures forall u | u in users && u != uid :: r[u] == users[u]
  {
    if uid in users then users[uid := Apply(users[uid], p)] else users
  }

  /** `updateUserByCustomerId`: every row holding that customer id gets the
      patch, every other row is kept. */
  function UpdateByCustomer(users: map<UserId, Record>, cid: CustomerId, p: Patch): (r: map<UserId, Record>)
    ensures r.Keys == users.Keys
    ensures forall u | u in users && users[u].stripeCustomerId == Some(cid) :: r[u] == Apply(users[u], p)
    ensures forall u | u in users && users[u].stripeCustomerId != Some(cid) :: r[u] == users[u]
  {
    map u | u in users :: if users[u].stripeCustomerId == Some(cid) then Apply(users[u], p) else users[u]
  }

  /** A second application of the same patch changes nothing. */
  lemma ApplyIdempotent(r: Record, p: Patch)
    ensures Apply(Apply(r, p), p) == Apply(r, p)
  {
  }

  /** Updating one row twice with the same patch is the same as once. */
  lemma UpdateByIdIdempotent(users: map<UserId, Record>, uid: UserId, p: Patch)
    ensures UpdateById(UpdateById(users, uid, p), uid, p) == UpdateById(users, uid, p)
  {
    if uid in users {
      ApplyIdempotent(users[uid], p);
    }
  }

  /** Updating by customer id twice is the same as once, provided the patch
      does not itself rewrite the customer id the rows were matched on. */
  lemma UpdateByCustomerIdempotent(users: map<UserId, Record>, cid: CustomerId, p: Patch)
    requires p.stripeCustomerId.Keep?
    ensures UpdateByCustomer(UpdateByCustomer(users, cid, p), cid, p) == UpdateByCustomer(users, cid, p)
  {
    var once := UpdateByCustomer(users, cid, p);
    var twice := UpdateByCustomer(once, cid, p);
    forall u | u in users
      ensures twice[u] == once[u]
    {
      if users[u].stripeCustomerId == Some(cid) {
        ApplyIdempotent(users[u], p);
      }
    }
  }

  /** The row stored under an id, if any: what `getUser` answers. */
  function FindUser(users: map<UserId, Record>, uid: UserId): (r: Option<Record>)
    ensures r.Some? <==> uid in users
    ensures r.Some? ==> r.value == users[uid]
  {
    if uid in users then Some(users[uid]) else None
  }

  /** The storage layer, holding every user row by id. */
  class Store {
    var users: map<UserId, Record>

    constructor (users: map<UserId, Record>)
      ensures this.users == users
    {
      this.users := users;
    }

    /** `storage.getUser` / the `db.select` by id. */
    method GetUser(uid: UserId) returns (r: Option<Record>)
      ensures r.Some? <==> uid in users
      ensures r.Some? ==> r.value == users[uid]
      ensures r == FindUser(users, uid)
    {
      r := FindUser(users, uid);
    }

    method UpdateUser(uid: UserId, p: Patch)
      modifies this
      ensures users == UpdateById(old(users), uid, p)
    {
      users := UpdateById(users, uid, p);
    }

    method UpdateUserByCustomerId(cid: CustomerId, p: Patch)
      modifies this
      ensures users == UpdateByCustomer(old(users), cid, p)
    {
      users := UpdateByCustomer(users, cid, p);
    }
  }
}
