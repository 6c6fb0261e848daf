/** POST /api/payments/webhook (src/app/api/payments/webhook/route.ts): the
    gateway's signed notification. A capture marks one unpaid order bound to
    the gateway order as paid; a failure marks one pending such order as
    failed; anything else is acknowledged without a write. */
module WebhookRoute {
  import opened Common
  import opened OrderModel
  import opened PaymentLifecycle

  /** `event.payload.payment.entity`: the payment's id and its gateway order
      (`order_id`), `None` when that is null or absent. */
  datatype PaymentEntity = PaymentEntity(id: string, orderRef: Option<string>)

  /** The parsed body: the event name and, when present, the payment entity. */
  datatype WebhookEvent = WebhookEvent(name: string, payment: Option<PaymentEntity>)

  /** The handler has no try/catch: an unset webhook secret, a body that is
      not JSON, or a payment event without its entity throws, and the server
      answers 500. */
  datatype WebhookOutcome = WebhookCrashed | BadSignature | Acknowledged

  function WebhookStatus(r: WebhookOutcome): int
  {
    match r
    case WebhookCrashed => 500
    case BadSignature => 400
    case Acknowledged => 200
  }

  /** What the handler does to the store. */
  datatype WebhookAction =
    | NoWrite(outcome: WebhookOutcome)
    | CapturePayment(orderRef: Option<string>, paymentRef: string)
    | FailPayment(orderRef: Option<string>)

  const CAPTURED: string := "payment.captured"
  const FAILED: string := "payment.failed"

  /** The signature header is the HMAC of the raw body under the configured
      webhook secret. */
  predicate Signed(cfg: Config, rawBody: string, signature: Option<string>)
  {
    cfg.webhookSecret.Some? && signature == Some(cfg.hmac(cfg.webhookSecret.value, rawBody))
  }

  /** The decision, given the raw body, the signature header and the body as
      parsed (`None` when it is not JSON). */
  function Decide(cfg: Config, rawBody: string, signature: Option<string>, parsed: Option<WebhookEvent>)
    : (a: WebhookAction)
    ensures !a.NoWrite? ==> Signed(cfg, rawBody, signature) && parsed.Some? && parsed.value.payment.Some?
    ensures a.CapturePayment? <==>
              Signed(cfg, rawBody, signature) && parsed.Some? && parsed.value.name == CAPTURED
              && parsed.value.payment.Some?
    ensures a.FailPayment? <==>
              Signed(cfg, rawBody, signature) && parsed.Some? && parsed.value.name == FAILED
              && parsed.value.payment.Some?
    ensures a.CapturePayment? ==>
              a.orderRef == parsed.value.payment.value.orderRef && a.paymentRef == parsed.value.payment.value.id
    ensures a.FailPayment? ==> a.orderRef == parsed.value.payment.value.orderRef
    ensures cfg.webhookSecret.None? ==> a == NoWrite(WebhookCrashed)
    ensures cfg.webhookSecret.Some? && !Signed(cfg, rawBody, signature) ==> a == NoWrite(BadSignature)
    ensures Signed(cfg, rawBody, signature) && parsed.None? ==> a == NoWrite(WebhookCrashed)
    ensures Signed(cfg, rawBody, signature) && parsed.Some? && (parsed.value.name == CAPTURED || parsed.value.name == FAILED)
            && parsed.value.payment.None? ==>
              a == NoWrite(WebhookCrashed)
    ensures Signed(cfg, rawBody, signature) && parsed.Some? && parsed.value.name != CAPTURED
            && parsed.value.name != FAILED ==>
              a == NoWrite(Acknowledged)
  {
    if cfg.webhookSecret.None? then NoWrite(WebhookCrashed)
    else if signature != Some(cfg.hmac(cfg.webhookSecret.value, rawBody)) then NoWrite(BadSignature)
    else if parsed.None? then NoWrite(WebhookCrashed)
    else
      var e := parsed.value;
      if e.name == CAPTURED then
        if e.payment.None? then NoWrite(WebhookCrashed) else CapturePayment(e.payment.value.orderRef, e.payment.value.id)
      else if e.name == FAILED then
        if e.payment.None? then NoWrite(WebhookCrashed) else FailPayment(e.payment.value.orderRef)
      else NoWrite(Acknowledged)
  }

  /** The reply: every update, whether or not it matched an order, is
      acknowledged. */
  function Outcome(a: WebhookAction): WebhookOutcome
  {
    if a.NoWrite? then a.outcome else Acknowledged
  }

  /** The event the action applies to a single order. */
  function EventOf(a: WebhookAction, now: int): PaymentEvent
    requires !a.NoWrite?
  {
    match a
    case CapturePayment(r, p) => Captured(r, p, now)
    case FailPayment(r) => PaymentFailed(r)
  }

  /** The action's filter on a stored order. */
  predicate Matches(a: WebhookAction, o: Order)
  {
    match a
    case NoWrite(_) => false
    case CapturePayment(r, _) => CaptureMatches(o, r)
    case FailPayment(r) => FailMatches(o, r)
  }

  /** `findOneAndUpdate`: when some stored order matches the filter, one of
      them (the database's choice) is updated; otherwise nothing changes. */
  ghost predicate Effect(m0: map<string, Order>, m1: map<string, Order>, a: WebhookAction, now: int)
  {
    if !a.NoWrite? && exists k :: k in m0 && Matches(a, m0[k]) then
      exists k :: k in m0 && Matches(a, m0[k]) && m1 == m0[k := Apply(m0[k], EventOf(a, now))]
    else m1 == m0
  }

  /** At most one order changes per notification, and it is a matching one. */
  lemma AtMostOneOrderChanges(m0: map<string, Order>, m1: map<string, Order>, a: WebhookAction, now: int,
                              k1: string, k2: string)
    requires Effect(m0, m1, a, now)
    requires k1 in m0 && k2 in m0 && m1.Keys == m0.Keys
    requires m1[k1] != m0[k1] && m1[k2] != m0[k2]
    ensures k1 == k2 && Matches(a, m0[k1])
  {
  }

  /** A notification keeps the store consistent, only moves payments forward,
      and leaves paid orders exactly as they were. */
  lemma EffectKeepsInvariants(m0: map<string, Order>, m1: map<string, Order>, a: WebhookAction, now: int)
    requires Effect(m0, m1, a, now)
    requires Consistent(m0)
    ensures m1.Keys == m0.Keys
    ensures Consistent(m1) && PaymentMonotone(m0, m1)
    ensures NoGatewayRefs(m0) ==> NoGatewayRefs(m1)
    ensures forall k | k in m0 && m0[k].paymentStatus == Paid :: m1[k] == m0[k]
  {
    if !a.NoWrite? && exists k :: k in m0 && Matches(a, m0[k]) {
      var k :| k in m0 && Matches(a, m0[k]) && m1 == m0[k := Apply(m0[k], EventOf(a, now))];
      ApplyStep(m0[k], EventOf(a, now));
    }
  }

  /** As written, no stored order is bound to a gateway order, so no
      notification that names a gateway order ever changes the store. */
  lemma UnboundStoreIgnoresNotifications(m0: map<string, Order>, m1: map<string, Order>, a: WebhookAction, now: int)
    requires NoGatewayRefs(m0) && Effect(m0, m1, a, now)
    requires a.NoWrite? || a.orderRef.Some?
    ensures m1 == m0
  {
  }

  /** The parsed body of a notification whose payment names no gateway order. */
  function UnnamedPaymentEvent(name: string, paymentId: string): Option<WebhookEvent>
  {
    Some(WebhookEvent(name, Some(PaymentEntity(paymentId, None))))
  }

  /** As written, a correctly signed `payment.captured` whose payment has a
      null `order_id` pays an order that is bound to no gateway order at all,
      whenever the store holds an unpaid one. */
  lemma NullRefCapturePaysUnboundOrder(cfg: Config, rawBody: string, paymentId: string,
                                       m0: map<string, Order>, m1: map<string, Order>, now: int)
    requires cfg.webhookSecret.Some?
    requires Effect(m0, m1, Decide(cfg, rawBody, Some(cfg.hmac(cfg.webhookSecret.value, rawBody)),
                                   UnnamedPaymentEvent(CAPTURED, paymentId)), now)
    requires exists k :: k in m0 && m0[k].gatewayOrderRef.None? && m0[k].paymentStatus != Paid
    ensures exists k :: && k in m0 && m0[k].gatewayOrderRef.None? && m0[k].paymentStatus != Paid
                        && m1 == m0[k := MarkCaptured(m0[k], paymentId, now)]
  {
    var a := Decide(cfg, rawBody, Some(cfg.hmac(cfg.webhookSecret.value, rawBody)),
                    UnnamedPaymentEvent(CAPTURED, paymentId));
    assert a == CapturePayment(None, paymentId);
    var k :| k in m0 && m0[k].gatewayOrderRef.None? && m0[k].paymentStatus != Paid;
    assert Matches(a, m0[k]);
    var j :| j in m0 && Matches(a, m0[j]) && m1 == m0[j := Apply(m0[j], EventOf(a, now))];
    assert m0[j].gatewayOrderRef.None? && m0[j].paymentStatus != Paid;
  }

  /** Likewise a correctly signed `payment.failed` with a null `order_id`
      fails a pending order bound to no gateway order. */
  lemma NullRefFailureFailsUnboundOrder(cfg: Config, rawBody: string, paymentId: string,
                                        m0: map<string, Order>, m1: map<string, Order>, now: int)
    requires cfg.webhookSecret.Some?
    requires Effect(m0, m1, Decide(cfg, rawBody, Some(cfg.hmac(cfg.webhookSecret.value, rawBody)),
                                   UnnamedPaymentEvent(FAILED, paymentId)), now)
    requires exists k :: k in m0 && m0[k].gatewayOrderRef.None? && m0[k].paymentStatus == Pending
    ensures exists k :: && k in m0 && m0[k].gatewayOrderRef.None? && m0[k].paymentStatus == Pending
                        && m1 == m0[k := MarkFailed(m0[k])]
  {
    var a := Decide(cfg, rawBody, Some(cfg.hmac(cfg.webhookSecret.value, rawBody)),
                    UnnamedPaymentEvent(FAILED, paymentId));
    assert a == FailPayment(None);
    var k :| k in m0 && m0[k].gatewayOrderRef.None? && m0[k].paymentStatus == Pending;
    assert Matches(a, m0[k]);
    var j :| j in m0 && Matches(a, m0[j]) && m1 == m0[j := Apply(m0[j], EventOf(a, now))];
    assert m0[j].gatewayOrderRef.None? && m0[j].paymentStatus == Pending;
  }

  /** The decision as intended: a payment that names no gateway order is
      acknowledged without a write; every other notification is decided as
      before. */
  function DecideBound(cfg: Config, rawBody: string, signature: Option<string>, parsed: Option<WebhookEvent>)
    : (a: WebhookAction)
    ensures !a.NoWrite? ==> a.orderRef.Some? && a == Decide(cfg, rawBody, signature, parsed)
    ensures Decide(cfg, rawBody, signature, parsed).NoWrite? ==> a == Decide(cfg, rawBody, signature, parsed)
    ensures Outcome(a) == Outcome(Decide(cfg, rawBody, signature, parsed))
  {
    var a := Decide(cfg, rawBody, signature, parsed);
    if !a.NoWrite? && a.orderRef.None? then NoWrite(Acknowledged) else a
  }

  /** With the intended decision, an order that a notification changes is
      bound to exactly the gateway order the payment names. */
  lemma BoundNotificationChangesOnlyNamedOrder(cfg: Config, rawBody: string, signature: Option<string>,
                                               parsed: Option<WebhookEvent>,
                                               m0: map<string, Order>, m1: map<string, Order>, now: int, k: string)
    requires Effect(m0, m1, DecideBound(cfg, rawBody, signature, parsed), now)
    requires k in m0 && (k !in m1 || m1[k] != m0[k])
    ensures parsed.Some? && parsed.value.payment.Some?
    ensures m0[k].gatewayOrderRef.Some? && m0[k].gatewayOrderRef == parsed.value.payment.value.orderRef
  {
    var a := DecideBound(cfg, rawBody, signature, parsed);
    var j :| j in m0 && Matches(a, m0[j]) && m1 == m0[j := Apply(m0[j], EventOf(a, now))];
    assert j == k;
  }
}
