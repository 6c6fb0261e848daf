/** POST /api/payments/create-order (src/app/api/payments/create-order/route.ts):
    the guards on a stored order before a payment is opened with the gateway,
    and the request sent to it. The handler reads the store and never writes
    it; the gateway's order identifier is only returned to the client. */
module PaymentOrderRoute {
  import opened Common
  import opened Strings
  import opened OrderModel

  /** The order the gateway is asked to open: the amount in paise, the currency,
      and the store's orderId as receipt and note. */
  datatype GatewayRequest = GatewayRequest(
    amount: int,
    currency: string,
    receipt: string,
    noteOrderId: string,
    notePackage: string)

  /** The gateway's reply to `orders.create`. */
  datatype GatewayOrder = GatewayOrder(id: string, amount: int, currency: string)

  datatype PaymentOrderOutcome =
    | PaymentRateLimited
    | InvalidOrderId
    | PaymentOrderNotFound
    | OrderAlreadyPaid
    | InvalidAmount
    | PaymentConfigError
    | GatewayFailed
    | PaymentOrderCreated(gatewayOrderId: string, amount: int, currency: string, key: string)

  function PaymentOrderStatus(r: PaymentOrderOutcome): int
  {
    match r
    case PaymentRateLimited => 429
    case InvalidOrderId => 400
    case PaymentOrderNotFound => 404
    case OrderAlreadyPaid => 400
    case InvalidAmount => 400
    case PaymentConfigError => 500
    case GatewayFailed => 500
    case PaymentOrderCreated(_, _, _, _) => 200
  }

  const PAYMENT_MAX_REQUESTS: int := 10
  const PAYMENT_WINDOW_MS: int := 60000

  /** A configuration value is usable when set and non-empty. */
  predicate Configured(v: Option<string>)
  {
    v.Some? && v.value != ""
  }

  /** The request for an order. */
  function RequestFor(o: Order): (q: GatewayRequest)
    ensures q.amount == o.totalAmount * 100 && q.currency == "INR"
    ensures q.receipt == o.orderId && q.noteOrderId == o.orderId
  {
    GatewayRequest(o.totalAmount * 100, "INR", o.orderId, o.orderId, PackageName(o.package))
  }

  /** Either the reply the guards give, or the request to send. */
  datatype Prepared = Refused(outcome: PaymentOrderOutcome) | Send(orderId: string, request: GatewayRequest)

  /** The guards up to the order lookup pass: the call is admitted, the id is
      an order identifier, and the order exists. */
  predicate Located(orders: map<string, Order>, allowed: bool, orderId: Field)
  {
    allowed && orderId.Text? && StartsWith(orderId.text, "ORD-") && orderId.text in orders
  }

  /** The guards, in order: rate limit; an orderId that is a non-empty string
      starting "ORD-"; a stored order; not yet paid; a positive amount; the
      gateway credentials configured. */
  function Prepare(orders: map<string, Order>, allowed: bool, orderId: Field, cfg: Config): (r: Prepared)
    ensures r.Send? <==>
              && allowed && orderId.Text? && StartsWith(orderId.text, "ORD-")
              && orderId.text in orders && orders[orderId.text].paymentStatus != Paid
              && orders[orderId.text].totalAmount > 0
              && Configured(cfg.gatewayKeyId) && Configured(cfg.gatewayKeySecret)
    ensures r.Send? ==> r.orderId == orderId.text && r.request == RequestFor(orders[r.orderId])
    ensures r.Refused? ==> !r.outcome.PaymentOrderCreated? && !r.outcome.GatewayFailed?
    ensures allowed && !(orderId.Text? && StartsWith(orderId.text, "ORD-")) ==> r == Refused(InvalidOrderId)
    ensures allowed && orderId.Text? && StartsWith(orderId.text, "ORD-") && orderId.text !in orders ==>
              r == Refused(PaymentOrderNotFound)
    ensures !allowed ==> r == Refused(PaymentRateLimited)
    ensures Located(orders, allowed, orderId) && orders[orderId.text].paymentStatus == Paid ==>
              r == Refused(OrderAlreadyPaid)
    ensures Located(orders, allowed, orderId) && orders[orderId.text].paymentStatus != Paid
            && orders[orderId.text].totalAmount <= 0 ==>
              r == Refused(InvalidAmount)
    ensures Located(orders, allowed, orderId) && orders[orderId.text].paymentStatus != Paid
            && orders[orderId.text].totalAmount > 0
            && !(Configured(cfg.gatewayKeyId) && Configured(cfg.gatewayKeySecret)) ==>
              r == Refused(PaymentConfigError)
  {
    if !allowed then Refused(PaymentRateLimited)
    else if !orderId.Text? || orderId.text == [] || !StartsWith(orderId.text, "ORD-") then Refused(InvalidOrderId)
    else if orderId.text !in orders then Refused(PaymentOrderNotFound)
    else
      var o := orders[orderId.text];
      if o.paymentStatus == Paid then Refused(OrderAlreadyPaid)
      else if o.totalAmount <= 0 then Refused(InvalidAmount)
      else if !Configured(cfg.gatewayKeyId) || !Configured(cfg.gatewayKeySecret) then Refused(PaymentConfigError)
      else Send(orderId.text, RequestFor(o))
  }

  /** The reply, given the gateway's answer to the request (`None` when the
      call throws). */
  function Reply(p: Prepared, gateway: Option<GatewayOrder>, cfg: Config): (r: PaymentOrderOutcome)
    ensures p.Refused? ==> r == p.outcome
    ensures p.Send? && gateway.None? ==> r == GatewayFailed
    ensures p.Send? && gateway.Some? && cfg.gatewayKeyId.Some? ==>
              r == PaymentOrderCreated(gateway.value.id, gateway.value.amount, gateway.value.currency,
                                       cfg.gatewayKeyId.value)
  {
    match p
    case Refused(outcome) => outcome
    case Send(_, _) =>
      if gateway.None? || cfg.gatewayKeyId.None? then GatewayFailed
      else PaymentOrderCreated(gateway.value.id, gateway.value.amount, gateway.value.currency, cfg.gatewayKeyId.value)
  }

  /** A pending or failed order with a positive amount can always be sent to
      the gateway again: opening a payment is not idempotent, each call asks
      the gateway for a new order. */
  lemma UnpaidOrderCanBeResent(orders: map<string, Order>, id: string, cfg: Config)
    requires id in orders && StartsWith(id, "ORD-") && orders[id].paymentStatus != Paid
    requires orders[id].totalAmount > 0
    requires Configured(cfg.gatewayKeyId) && Configured(cfg.gatewayKeySecret)
    ensures Prepare(orders, true, Text(id), cfg) == Send(id, RequestFor(orders[id]))
  {
  }
}
