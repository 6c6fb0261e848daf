/** POST /api/payments/verify (src/app/api/payments/verify/route.ts): the
    client reports a completed payment; after a chain of guards and a signature
    check the order is marked paid by a conditional update that matches only a
    pending order bound to the named gateway order. */
module VerifyRoute {
  import opened Common
  import opened OrderModel
  import opened PaymentLifecycle

  /** The JSON body: the gateway's order and payment identifiers, its signature
      over them, and the store's orderId. */
  datatype VerifyBody = VerifyBody(gatewayOrderId: Field, gatewayPaymentId: Field, signature: Field, orderId: Field)

  datatype VerifyOutcome =
    | VerifyRateLimited
    | MissingDetails
    | InvalidFormat
    | VerifyOrderNotFound
    | AlreadyVerified
    | OrderExpired
    | VerifyConfigError
    | InvalidSignature
    | Conflict
    | Verified

  function VerifyStatus(r: VerifyOutcome): int
  {
    match r
    case VerifyRateLimited => 429
    case MissingDetails => 400
    case InvalidFormat => 400
    case VerifyOrderNotFound => 404
    case AlreadyVerified => 200
    case OrderExpired => 400
    case VerifyConfigError => 500
    case InvalidSignature => 400
    case Conflict => 409
    case Verified => 200
  }

  /** `MAX_ORDER_AGE`: a day, in milliseconds. */
  const MAX_ORDER_AGE_MS: int := 24 * 60 * 60 * 1000

  const VERIFY_MAX_REQUESTS: int := 10
  const VERIFY_WINDOW_MS: int := 60000

  /** The message the gateway signs: `${orderRef}|${paymentRef}`. */
  function SignedPayload(orderRef: string, paymentRef: string): string
  {
    orderRef + "|" + paymentRef
  }

  predicate AllPresent(b: VerifyBody)
  {
    Truthy(b.gatewayOrderId) && Truthy(b.gatewayPaymentId) && Truthy(b.signature) && Truthy(b.orderId)
  }

  predicate AllText(b: VerifyBody)
  {
    b.gatewayOrderId.Text? && b.gatewayPaymentId.Text? && b.signature.Text? && b.orderId.Text?
  }

  /** The signature is HMAC-SHA256 of the payload under the API secret, compared
      as text. */
  predicate SignatureValid(cfg: Config, b: VerifyBody)
    requires AllText(b) && cfg.gatewayKeySecret.Some?
  {
    cfg.hmac(cfg.gatewayKeySecret.value, SignedPayload(b.gatewayOrderId.text, b.gatewayPaymentId.text)) == b.signature.text
  }

  /** The guards up to the order lookup pass: the call is admitted, the body
      is complete and well-typed, and the order exists. */
  predicate Located(orders: map<string, Order>, allowed: bool, b: VerifyBody)
  {
    allowed && AllPresent(b) && AllText(b) && b.orderId.text in orders
  }

  /** The guards before the configuration check pass as well: the order is
      not paid and not expired. */
  predicate Unsettled(orders: map<string, Order>, allowed: bool, b: VerifyBody, now: int)
  {
    && Located(orders, allowed, b) && orders[b.orderId.text].paymentStatus != Paid
    && now - orders[b.orderId.text].createdAt <= MAX_ORDER_AGE_MS
  }

  /** The handler, given whether the rate limiter admitted the call. */
  function Verify(orders: map<string, Order>, allowed: bool, b: VerifyBody, now: int, cfg: Config)
    : (r: (VerifyOutcome, map<string, Order>))
    ensures r.0 != Verified ==> r.1 == orders
    ensures r.0 == Verified <==>
              && allowed && AllPresent(b) && AllText(b) && b.orderId.text in orders
              && orders[b.orderId.text].paymentStatus == Pending
              && now - orders[b.orderId.text].createdAt <= MAX_ORDER_AGE_MS
              && cfg.gatewayKeySecret.Some? && cfg.gatewayKeySecret.value != ""
              && SignatureValid(cfg, b)
              && VerifyMatches(orders[b.orderId.text], b.gatewayOrderId.text)
    ensures r.0 == Verified ==>
              r.1 == orders[b.orderId.text := MarkVerified(orders[b.orderId.text], b.gatewayPaymentId.text, now)]
    ensures allowed && !AllPresent(b) ==> r.0 == MissingDetails
    ensures allowed && AllPresent(b) && !AllText(b) ==> r.0 == InvalidFormat
    ensures !allowed ==> r.0 == VerifyRateLimited
    ensures allowed && AllPresent(b) && AllText(b) && b.orderId.text !in orders ==> r.0 == VerifyOrderNotFound
    ensures Located(orders, allowed, b) && orders[b.orderId.text].paymentStatus == Paid ==> r.0 == AlreadyVerified
    ensures Located(orders, allowed, b) && orders[b.orderId.text].paymentStatus != Paid
            && now - orders[b.orderId.text].createdAt > MAX_ORDER_AGE_MS ==>
              r.0 == OrderExpired
    ensures Unsettled(orders, allowed, b, now) && (cfg.gatewayKeySecret.None? || cfg.gatewayKeySecret.value == "") ==>
              r.0 == VerifyConfigError
    ensures Unsettled(orders, allowed, b, now) && cfg.gatewayKeySecret.Some? && cfg.gatewayKeySecret.value != ""
            && !SignatureValid(cfg, b) ==>
              r.0 == InvalidSignature
    ensures Unsettled(orders, allowed, b, now) && cfg.gatewayKeySecret.Some? && cfg.gatewayKeySecret.value != ""
            && SignatureValid(cfg, b) && !VerifyMatches(orders[b.orderId.text], b.gatewayOrderId.text) ==>
              r.0 == Conflict
  {
    if !allowed then (VerifyRateLimited, orders)
    else if !AllPresent(b) then (MissingDetails, orders)
    else if !AllText(b) then (InvalidFormat, orders)
    else if b.orderId.text !in orders then (VerifyOrderNotFound, orders)
    else
      var o := orders[b.orderId.text];
      if o.paymentStatus == Paid then (AlreadyVerified, orders)
      else if now - o.createdAt > MAX_ORDER_AGE_MS then (OrderExpired, orders)
      else if cfg.gatewayKeySecret.None? || cfg.gatewayKeySecret.value == "" then (VerifyConfigError, orders)
      else if !SignatureValid(cfg, b) then (InvalidSignature, orders)
      else if !VerifyMatches(o, b.gatewayOrderId.text) then (Conflict, orders)
      else (Verified, orders[b.orderId.text := MarkVerified(o, b.gatewayPaymentId.text, now)])
  }

  /** A verification keeps the store consistent and only moves payments forward. */
  lemma VerifyKeepsInvariants(orders: map<string, Order>, allowed: bool, b: VerifyBody, now: int, cfg: Config)
    requires Consistent(orders)
    ensures Consistent(Verify(orders, allowed, b, now, cfg).1)
    ensures PaymentMonotone(orders, Verify(orders, allowed, b, now, cfg).1)
    ensures NoGatewayRefs(orders) ==> NoGatewayRefs(Verify(orders, allowed, b, now, cfg).1)
  {
  }

  /** Once an order is verified, a second verification of it, with any
      identifiers and signature, reports it as already paid and writes
      nothing; in particular the stored payment reference stays. */
  lemma VerifyIsIdempotent(orders: map<string, Order>, b: VerifyBody, now: int, cfg: Config, b2: VerifyBody, later: int)
    requires Verify(orders, true, b, now, cfg).0 == Verified
    requires AllPresent(b2) && AllText(b2) && b2.orderId == b.orderId
    ensures var after := Verify(orders, true, b, now, cfg).1;
            Verify(after, true, b2, later, cfg) == (AlreadyVerified, after)
            && after[b.orderId.text].gatewayPaymentRef == Some(b.gatewayPaymentId.text)
  {
  }

  /** An order older than a day is refused even with a valid signature, and
      stays unpaid. */
  lemma ExpiredOrderRefused(orders: map<string, Order>, b: VerifyBody, now: int, cfg: Config)
    requires AllPresent(b) && AllText(b) && b.orderId.text in orders
    requires orders[b.orderId.text].paymentStatus != Paid
    requires now - orders[b.orderId.text].createdAt > MAX_ORDER_AGE_MS
    ensures Verify(orders, true, b, now, cfg) == (OrderExpired, orders)
  {
  }

  /** As written, no stored order carries a gateway order reference (the
      payment-order route returns it without storing it), so a correctly signed
      verification of a fresh pending order always ends in the 409 conflict. */
  lemma ValidPaymentOnFreshOrderConflicts(orders: map<string, Order>, b: VerifyBody, now: int, cfg: Config)
    requires NoGatewayRefs(orders)
    requires AllPresent(b) && AllText(b) && b.orderId.text in orders
    requires orders[b.orderId.text].paymentStatus == Pending
    requires now - orders[b.orderId.text].createdAt <= MAX_ORDER_AGE_MS
    requires cfg.gatewayKeySecret.Some? && cfg.gatewayKeySecret.value != "" && SignatureValid(cfg, b)
    ensures Verify(orders, true, b, now, cfg) == (Conflict, orders)
  {
  }

  /** Once the gateway reference is stored with the order, the same correctly
      signed verification succeeds and marks the order paid and active. */
  lemma BoundOrderVerifies(orders: map<string, Order>, b: VerifyBody, now: int, cfg: Config)
    requires AllPresent(b) && AllText(b) && b.orderId.text in orders
    requires orders[b.orderId.text].paymentStatus == Pending
    requires orders[b.orderId.text].gatewayOrderRef == Some(b.gatewayOrderId.text)
    requires now - orders[b.orderId.text].createdAt <= MAX_ORDER_AGE_MS
    requires cfg.gatewayKeySecret.Some? && cfg.gatewayKeySecret.value != "" && SignatureValid(cfg, b)
    ensures Verify(orders, true, b, now, cfg).0 == Verified
    ensures var o := Verify(orders, true, b, now, cfg).1[b.orderId.text];
            o.paymentStatus == Paid && o.active && o.gatewayPaymentRef == Some(b.gatewayPaymentId.text)
  {
  }
}
