/** PATCH /api/admin/orders/mark-meal (src/app/api/admin/orders/mark-meal/route.ts):
    an administrator marks one meal of a paid order as delivered; delivering
    dinner closes a daily order. */
module MarkMealRoute {
  import opened Common
  import opened OrderModel
  import opened Validations

  datatype MarkMealOutcome =
    | Unauthorized
    | MissingOrderId
    | InvalidMeal
    | MealOrderNotFound
    | PaymentNotConfirmed(paymentStatus: PaymentStatus)
    | AlreadyDelivered(meal: MealKind)
    | MealMarked(meal: MealKind)

  function MarkMealStatus(r: MarkMealOutcome): int
  {
    match r
    case Unauthorized => 401
    case MissingOrderId => 400
    case InvalidMeal => 400
    case MealOrderNotFound => 404
    case PaymentNotConfirmed(_) => 403
    case AlreadyDelivered(_) => 400
    case MealMarked(_) => 200
  }

  /** The `$set` of a delivery: the meal is delivered at `now`, the other two
      meals are untouched, and `active` is cleared exactly when dinner of a
      daily package is delivered. Nothing else changes. */
  function DeliverMeal(o: Order, k: MealKind, now: int): (r: Order)
    ensures MealOf(r.meals, k) == Meal(true, Some(now))
    ensures forall j: MealKind :: j != k ==> MealOf(r.meals, j) == MealOf(o.meals, j)
    ensures r.active == (o.active && !(k == Dinner && o.package == Daily))
    ensures r.(meals := o.meals, active := o.active) == o
  {
    var updated := o.(meals := WithMeal(o.meals, k, Meal(true, Some(now))));
    if k == Dinner && o.package == Daily then updated.(active := false) else updated
  }

  /** The handler. `token` is the `x-admin-token` header, `orderId` and `meal`
      the body's fields ("" when absent). */
  function MarkMeal(orders: map<string, Order>, token: Option<string>, orderId: string, meal: string,
                    now: int, cfg: Config): (r: (MarkMealOutcome, map<string, Order>))
    ensures !r.0.MealMarked? ==> r.1 == orders
    ensures r.0.MealMarked? <==>
              && ValidateAdminToken(token, cfg.adminToken) && orderId != ""
              && ParseMeal(meal).Some? && orderId in orders
              && orders[orderId].paymentStatus == Paid
              && !MealOf(orders[orderId].meals, ParseMeal(meal).value).delivered
    ensures r.0.MealMarked? ==>
              r.0.meal == ParseMeal(meal).value
              && r.1 == orders[orderId := DeliverMeal(orders[orderId], r.0.meal, now)]
    ensures !ValidateAdminToken(token, cfg.adminToken) ==> r.0 == Unauthorized
    ensures ValidateAdminToken(token, cfg.adminToken) && orderId == "" ==> r.0 == MissingOrderId
    ensures ValidateAdminToken(token, cfg.adminToken) && orderId != "" && ParseMeal(meal).None? ==>
              r.0 == InvalidMeal
    ensures ValidateAdminToken(token, cfg.adminToken) && orderId != "" && ParseMeal(meal).Some?
            && orderId !in orders ==>
              r.0 == MealOrderNotFound
    ensures ValidateAdminToken(token, cfg.adminToken) && orderId != "" && ParseMeal(meal).Some?
            && orderId in orders && orders[orderId].paymentStatus != Paid ==>
              r.0 == PaymentNotConfirmed(orders[orderId].paymentStatus)
    ensures ValidateAdminToken(token, cfg.adminToken) && orderId != "" && ParseMeal(meal).Some?
            && orderId in orders && orders[orderId].paymentStatus == Paid
            && MealOf(orders[orderId].meals, ParseMeal(meal).value).delivered ==>
              r.0 == AlreadyDelivered(ParseMeal(meal).value)
  {
    if token.None? || token.value == "" || !ValidateAdminToken(token, cfg.adminToken) then (Unauthorized, orders)
    else if orderId == "" then (MissingOrderId, orders)
    else
      var kind := ParseMeal(meal);
      if meal == "" || kind.None? then (InvalidMeal, orders)
      else if orderId !in orders then (MealOrderNotFound, orders)
      else
        var o := orders[orderId];
        if o.paymentStatus != Paid then (PaymentNotConfirmed(o.paymentStatus), orders)
        else if MealOf(o.meals, kind.value).delivered then (AlreadyDelivered(kind.value), orders)
        else (MealMarked(kind.value), orders[orderId := DeliverMeal(o, kind.value, now)])
  }

  /** Marking the same meal of the same order a second time always fails and
      changes nothing, whenever it is attempted. */
  lemma {:induction false} SecondMarkFails(orders: map<string, Order>, token: Option<string>, orderId: string,
                                           meal: string, now: int, later: int, cfg: Config)
    requires MarkMeal(orders, token, orderId, meal, now, cfg).0.MealMarked?
    ensures var after := MarkMeal(orders, token, orderId, meal, now, cfg).1;
            MarkMeal(after, token, orderId, meal, later, cfg) == (AlreadyDelivered(ParseMeal(meal).value), after)
  {
    var k := ParseMeal(meal).value;
    var after := MarkMeal(orders, token, orderId, meal, now, cfg).1;
    assert after[orderId] == DeliverMeal(orders[orderId], k, now);
    assert MealOf(after[orderId].meals, k).delivered;
  }

  /** A delivery keeps the store consistent and leaves payment states alone. */
  lemma MarkMealKeepsInvariants(orders: map<string, Order>, token: Option<string>, orderId: string,
                                meal: string, now: int, cfg: Config)
    requires Consistent(orders)
    ensures var after := MarkMeal(orders, token, orderId, meal, now, cfg).1;
            Consistent(after) && PaymentMonotone(orders, after)
            && (NoGatewayRefs(orders) ==>
              NoGatewayRefs(after))
  {
  }
}
