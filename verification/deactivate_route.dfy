/** POST /api/orders/deactivate (src/app/api/orders/deactivate/route.ts): a
    found order is switched off and marked cancelled, whatever its payment
    state. The route checks no credentials. */
module DeactivateRoute {
  import opened Common
  import opened OrderModel

  datatype DeactivateOutcome = DeactivateMissingId | DeactivateNotFound | Deactivated(orderId: string)

  function DeactivateStatus(r: DeactivateOutcome): int
  {
    match r
    case DeactivateMissingId => 400
    case DeactivateNotFound => 404
    case Deactivated(_) => 200
  }

  /** `order.active = false; order.status = "cancelled"`: nothing else changes. */
  function Cancel(o: Order): (r: Order)
    ensures !r.active && r.status == Cancelled
    ensures r.(active := o.active, status := o.status) == o
  {
    o.(active := false, status := Cancelled)
  }

  /** The handler; `orderId` is the body's field, "" when absent. */
  function Deactivate(orders: map<string, Order>, orderId: string): (r: (DeactivateOutcome, map<string, Order>))
    ensures r.0.Deactivated? <==> orderId != "" && orderId in orders
    ensures r.0.Deactivated? ==> r.0.orderId == orderId && r.1 == orders[orderId := Cancel(orders[orderId])]
    ensures !r.0.Deactivated? ==> r.1 == orders
    ensures orderId == "" ==> r.0 == DeactivateMissingId
    ensures orderId != "" && orderId !in orders ==> r.0 == DeactivateNotFound
  {
    if orderId == "" then (DeactivateMissingId, orders)
    else if orderId !in orders then (DeactivateNotFound, orders)
    else (Deactivated(orderId), orders[orderId := Cancel(orders[orderId])])
  }

  /** Deactivating twice is the same as deactivating once, and both calls succeed. */
  lemma DeactivateIdempotent(orders: map<string, Order>, orderId: string)
    ensures var once := Deactivate(orders, orderId);
            Deactivate(once.1, orderId) == once
  {
    if orderId != "" && orderId in orders {
      var once := Deactivate(orders, orderId).1;
      assert once[orderId := Cancel(once[orderId])] == once;
    }
  }

  /** Deactivation keeps the store consistent and leaves payment states alone. */
  lemma DeactivateKeepsInvariants(orders: map<string, Order>, orderId: string)
    requires Consistent(orders)
    ensures var after := Deactivate(orders, orderId).1;
            Consistent(after) && PaymentMonotone(orders, after)
            && (NoGatewayRefs(orders) ==> NoGatewayRefs(after))
  {
  }
}
