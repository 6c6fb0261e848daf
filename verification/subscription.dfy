/** The subscription helpers of src/lib/subscriptionHelper.ts: the duration
    table and end date of a subscription, the lazy expiry of subscriptions past
    their end date, and the question whether a user holds a live one. */
module Subscription {
  import opened Common
  import opened OrderModel

  /** Days a package runs: a trial or daily package one day, weekly seven,
      monthly thirty, anything else none. */
  function DurationDays(packageType: string): (d: nat)
    ensures packageType in {"trial", "daily"} ==> d == 1
    ensures packageType == "weekly" ==> d == 7
    ensures packageType == "monthly" ==> d == 30
    ensures packageType !in {"trial", "daily", "weekly", "monthly"} ==> d == 0
  {
    if packageType == "trial" || packageType == "daily" then 1
    else if packageType == "weekly" then 7
    else if packageType == "monthly" then 30
    else 0
  }

  datatype Dates = Dates(startDate: int, endDate: int)

  /** `calculateSubscriptionDates`: the subscription starts now and ends the
      package's number of whole days later. */
  function SubscriptionDates(packageType: string, now: int): (r: Dates)
    ensures r.startDate == now
    ensures r.endDate - r.startDate == DurationDays(packageType) * MS_PER_DAY
    ensures r.endDate >= r.startDate
  {
    Dates(now, now + DurationDays(packageType) * MS_PER_DAY)
  }

  /** The filter of the expiry: `{ active: true, endDate: { $lt: now } }`; an
      order without an end date never matches. */
  predicate Expires(o: Order, now: int)
  {
    o.active && o.endDate.Some? && o.endDate.value < now
  }

  /** The expiry's `$set`. */
  function Expire(o: Order): (r: Order)
    ensures !r.active && r.status == Expired
    ensures r.(active := o.active, status := o.status) == o
  {
    o.(active := false, status := Expired)
  }

  /** `updateMany` of the expiry over the whole store. */
  function ExpireAll(orders: map<string, Order>, now: int): (r: map<string, Order>)
    ensures r.Keys == orders.Keys
    ensures forall k | k in orders :: r[k] == if Expires(orders[k], now) then Expire(orders[k]) else orders[k]
  {
    map k | k in orders :: if Expires(orders[k], now) then Expire(orders[k]) else orders[k]
  }

  /** The orders the expiry modifies. */
  function ExpiringKeys(orders: map<string, Order>, now: int): set<string>
  {
    set k | k in orders && Expires(orders[k], now)
  }

  /** After an expiry no order is due to expire at that time: a second run
      modifies nothing and reports a count of zero. */
  lemma ExpireAllIdempotent(orders: map<string, Order>, now: int)
    ensures ExpiringKeys(ExpireAll(orders, now), now) == {}
    ensures ExpireAll(ExpireAll(orders, now), now) == ExpireAll(orders, now)
  {
    var once := ExpireAll(orders, now);
    assert forall k | k in once :: !Expires(once[k], now);
  }

  /** The expiry modifies exactly the expiring orders: an order changes if and
      only if it was active with an end date in the past. */
  lemma ExpiryChangesExactlyExpiring(orders: map<string, Order>, now: int, k: string)
    requires k in orders
    ensures ExpireAll(orders, now)[k] != orders[k] <==> k in ExpiringKeys(orders, now)
  {
  }

  /** The expiry keeps the store consistent and leaves payments alone. */
  lemma ExpireAllKeepsInvariants(orders: map<string, Order>, now: int)
    requires Consistent(orders)
    ensures Consistent(ExpireAll(orders, now)) && PaymentMonotone(orders, ExpireAll(orders, now))
    ensures NoGatewayRefs(orders) ==> NoGatewayRefs(ExpireAll(orders, now))
  {
  }

  /** The query of `hasActiveSubscription`: an active order of the user whose
      end date is not yet past. */
  predicate LiveFor(o: Order, userId: string, now: int)
  {
    o.user == Some(userId) && o.active && o.endDate.Some? && o.endDate.value >= now
  }

  function LiveKeys(orders: map<string, Order>, userId: string, now: int): set<string>
  {
    set k | k in orders && LiveFor(orders[k], userId, now)
  }

  /** Running the expiry first does not change the answer: the orders it
      switches off are exactly ones whose end date is past, which the query
      excludes anyway. */
  lemma ExpiryPreservesLiveOrders(orders: map<string, Order>, userId: string, now: int)
    ensures LiveKeys(ExpireAll(orders, now), userId, now) == LiveKeys(orders, userId, now)
  {
    var after := ExpireAll(orders, now);
    forall k | k in orders
      ensures LiveFor(after[k], userId, now) <==> LiveFor(orders[k], userId, now)
    {
      if Expires(orders[k], now) {
        assert !LiveFor(orders[k], userId, now);
      }
    }
  }
}
