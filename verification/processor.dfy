/** The payment processor as the billing code sees it: a table of customers,
    each live or deleted, a retrieve call that throws for an id it does not
    know and may also throw for one it does know (a network error, a rate
    limit: a lookup with `throws` set), a create call whose new id is handed in by the caller (the
    processor guarantees it is new and not empty), and the subscriptions it
    lists per customer. */
module Processor {
  import opened Wrappers
  import opened Profiles

  /** A processor customer: what it was created with, and whether it has
      since been deleted. */
  datatype Customer = Customer(email: Option<string>, name: Option<string>, userId: UserId, deleted: bool)

  /** The result of `stripe.customers.retrieve`. */
  datatype Retrieval = LookupFailed | Retrieved(customer: Customer)

  /** A subscription: its status, the price id of each of its items, and the
      end of its current period in epoch seconds (0 when absent). */
  datatype Subscription = Subscription(status: string, priceIds: seq<string>, currentPeriodEnd: int)

  /** A customer the processor knows and has not deleted. */
  predicate IsLive(customers: map<CustomerId, Customer>, cid: CustomerId) {
    cid in customers && !customers[cid].deleted
  }

  class Gateway {
    var customers: map<CustomerId, Customer>

    constructor (customers: map<CustomerId, Customer>)
      ensures this.customers == customers
    {
      this.customers := customers;
    }

    /** `throws` says whether this lookup throws although the processor may
        know the id. */
    method Retrieve(cid: CustomerId, throws: bool) returns (r: Retrieval)
      ensures r.LookupFailed? <==> cid !in customers || throws
      ensures r.Retrieved? ==> r.customer == customers[cid]
    {
      r := if cid in customers && !throws then Retrieved(customers[cid]) else LookupFailed;
    }

    method Create(email: Option<string>, name: Option<string>, userId: UserId, newId: CustomerId)
      returns (cid: CustomerId)
      requires newId !in customers && newId != ""
      modifies this
      ensures cid == newId
      ensures customers == old(customers)[newId := Customer(email, name, userId, false)]
    {
      customers := customers[newId := Customer(email, name, userId, false)];
      cid := newId;
    }
  }
}
