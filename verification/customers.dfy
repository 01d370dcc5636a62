/** `createOrRetrieveCustomer` of packages/server/services/billing/customers.ts:
    the lighter check-then-create that trusts any stored id. */
module Customers {
  import opened Wrappers
  import opened Http
  import opened Profiles
  import opened Processor
  import StripeService

  /** A stored, non-empty id is returned as it is: no processor call, no
      write, and no check that the processor still has that customer.
      Otherwise exactly one customer is created with the email and the user
      id as metadata, and its id is written to the user's row. */
  method CreateOrRetrieveCustomer(store: Store, gw: Gateway, userId: UserId, email: string, newId: CustomerId)
    returns (cid: CustomerId)
    requires newId !in gw.customers && newId != ""
    modifies store, gw
    ensures var stored := StripeService.StoredCustomerId(old(store.users), userId);
      if Truthy(stored) then
        cid == stored.value && store.users == old(store.users) && gw.customers == old(gw.customers)
      else
        && cid == newId
        && gw.customers == old(gw.customers)[newId := Customer(Some(email), None, userId, false)]
        && store.users == UpdateById(old(store.users), userId, SetCustomer(newId))
  {
    var u := store.GetUser(userId);
    if u.Some? && Truthy(u.value.stripeCustomerId) {
      return u.value.stripeCustomerId.value;
    }
    cid := gw.Create(Some(email), None, userId, newId);
    store.UpdateUser(userId, SetCustomer(cid));
  }

  /** Two calls in a row for a user who has a row: the second returns the
      first one's id and creates nothing. */
  method CallTwice(store: Store, gw: Gateway, userId: UserId, email: string, id1: CustomerId, id2: CustomerId)
    returns (first: CustomerId, second: CustomerId)
    requires userId in store.users
    requires id1 !in gw.customers && id1 != ""
    requires id2 !in gw.customers && id2 != "" && id2 != id1
    modifies store, gw
    ensures second == first
    ensures gw.customers.Keys <= old(gw.customers.Keys) + {id1}
    ensures userId in store.users && store.users[userId].stripeCustomerId == Some(first)
  {
    first := CreateOrRetrieveCustomer(store, gw, userId, email, id1);
    second := CreateOrRetrieveCustomer(store, gw, userId, email, id2);
  }

  /** Without a row for the user the write goes nowhere, so a second call
      creates a second customer. */
  method CallTwiceWithoutRow(store: Store, gw: Gateway, userId: UserId, email: string, id1: CustomerId, id2: CustomerId)
    returns (first: CustomerId, second: CustomerId)
    requires userId !in store.users
    requires id1 !in gw.customers && id1 != ""
    requires id2 !in gw.customers && id2 != "" && id2 != id1
    modifies store, gw
    ensures first == id1 && second == id2
    ensures gw.customers.Keys == old(gw.customers.Keys) + {id1, id2}
  {
    first := CreateOrRetrieveCustomer(store, gw, userId, email, id1);
    second := CreateOrRetrieveCustomer(store, gw, userId, email, id2);
  }
}
