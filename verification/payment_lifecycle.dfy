/** The payment state of one order and the three conditional updates that move
    it: the client's verification (src/app/api/payments/verify/route.ts), and the
    gateway's capture and failure notifications
    (src/app/api/payments/webhook/route.ts). Each update is a filter on the
    stored order followed by a `$set`; an order the filter rejects is left as it
    is. Sequences of these events are folded over one order, which is how the
    ordering and idempotence properties are stated. */
module PaymentLifecycle {
  import opened Common
  import opened OrderModel

  /** The filter of the client verification: still pending and bound to the
      gateway order the client names. */
  predicate VerifyMatches(o: Order, orderRef: string)
  {
    o.paymentStatus == Pending && o.gatewayOrderRef == Some(orderRef)
  }

  /** The `$set` of the client verification. */
  function MarkVerified(o: Order, paymentRef: string, now: int): (r: Order)
    ensures r.paymentStatus == Paid && r.active
    ensures r.gatewayPaymentRef == Some(paymentRef) && r.verifiedAt == Some(now)
    ensures r.(paymentStatus := o.paymentStatus, active := o.active,
               gatewayPaymentRef := o.gatewayPaymentRef, verifiedAt := o.verifiedAt) == o
  {
    o.(paymentStatus := Paid, active := true, gatewayPaymentRef := Some(paymentRef), verifiedAt := Some(now))
  }

  /** The filter of `payment.captured`: bound to the gateway order the payment
      names and not yet paid (a failed order qualifies). MongoDB's equality
      with null also matches a document that lacks the path, so a payment that
      names no gateway order (`None`) matches every order with no gateway order
      stored. */
  predicate CaptureMatches(o: Order, orderRef: Option<string>)
  {
    o.gatewayOrderRef == orderRef && o.paymentStatus != Paid
  }

  /** The `$set` of `payment.captured`. */
  function MarkCaptured(o: Order, paymentRef: string, now: int): (r: Order)
    ensures r.paymentStatus == Paid && r.active
    ensures r.gatewayPaymentRef == Some(paymentRef) && r.paidAt == Some(now)
    ensures r.(paymentStatus := o.paymentStatus, active := o.active,
               gatewayPaymentRef := o.gatewayPaymentRef, paidAt := o.paidAt) == o
  {
    o.(paymentStatus := Paid, active := true, gatewayPaymentRef := Some(paymentRef), paidAt := Some(now))
  }

  /** The filter of `payment.failed`: bound to the gateway order the payment
      names (with the same reading of `None` as for a capture) and pending. */
  predicate FailMatches(o: Order, orderRef: Option<string>)
  {
    o.gatewayOrderRef == orderRef && o.paymentStatus == Pending
  }

  /** The `$set` of `payment.failed`: only the payment status changes. */
  function MarkFailed(o: Order): (r: Order)
    ensures r.paymentStatus == Failed && r.(paymentStatus := o.paymentStatus) == o
  {
    o.(paymentStatus := Failed)
  }

  /** An event that reaches an order's payment state. */
  datatype PaymentEvent =
    | ClientVerified(claimedRef: string, paymentRef: string, at: int)
    | Captured(orderRef: Option<string>, paymentRef: string, at: int)
    | PaymentFailed(orderRef: Option<string>)

  /** The effect of one event on one stored order. */
  function Apply(o: Order, e: PaymentEvent): Order
  {
    match e
    case ClientVerified(r, p, t) => if VerifyMatches(o, r) then MarkVerified(o, p, t) else o
    case Captured(r, p, t) => if CaptureMatches(o, r) then MarkCaptured(o, p, t) else o
    case PaymentFailed(r) => if FailMatches(o, r) then MarkFailed(o) else o
  }

  /** The order after a sequence of events, applied in order. */
  function Run(o: Order, es: seq<PaymentEvent>): Order
    decreases |es|
  {
    if es == [] then o else Run(Apply(o, es[0]), es[1..])
  }

  /** One event keeps an order consistent, keeps its identity and its gateway
      order binding, never returns it to pending, and leaves a paid order
      exactly as it was. */
  lemma ApplyStep(o: Order, e: PaymentEvent)
    ensures OrderConsistent(o) ==> OrderConsistent(Apply(o, e))
    ensures Apply(o, e).orderId == o.orderId && Apply(o, e).gatewayOrderRef == o.gatewayOrderRef
    ensures o.paymentStatus != Pending ==> Apply(o, e).paymentStatus != Pending
    ensures o.paymentStatus == Paid ==> Apply(o, e) == o
  {
  }

  /** A paid order is unaffected by any sequence of later verifications,
      captures or failures: the first settlement stands. */
  lemma {:induction false} PaidIsAbsorbing(o: Order, es: seq<PaymentEvent>)
    requires o.paymentStatus == Paid
    ensures Run(o, es) == o
    decreases |es|
  {
    if es != [] {
      ApplyStep(o, es[0]);
      PaidIsAbsorbing(o, es[1..]);
    }
  }

  /** Along any sequence of events an order stays consistent, keeps its
      identity, and once it has left pending it never returns there. */
  lemma {:induction false} RunKeepsInvariants(o: Order, es: seq<PaymentEvent>)
    ensures OrderConsistent(o) ==> OrderConsistent(Run(o, es))
    ensures Run(o, es).orderId == o.orderId && Run(o, es).gatewayOrderRef == o.gatewayOrderRef
    ensures o.paymentStatus != Pending ==> Run(o, es).paymentStatus != Pending
    decreases |es|
  {
    if es != [] {
      ApplyStep(o, es[0]);
      RunKeepsInvariants(Apply(o, es[0]), es[1..]);
    }
  }

  /** How many events of the sequence move the order into the paid state. */
  function Settlements(o: Order, es: seq<PaymentEvent>): nat
    decreases |es|
  {
    if es == [] then 0
    else
      var next := Apply(o, es[0]);
      (if o.paymentStatus != Paid && next.paymentStatus == Paid then 1 else 0) + Settlements(next, es[1..])
  }

  /** An order is settled at most once, whatever mix of client verifications
      and gateway captures reaches it, and not at all if it starts paid. */
  lemma {:induction false} AtMostOneSettlement(o: Order, es: seq<PaymentEvent>)
    ensures Settlements(o, es) <= 1
    ensures o.paymentStatus == Paid ==> Settlements(o, es) == 0
    decreases |es|
  {
    if es != [] {
      var next := Apply(o, es[0]);
      AtMostOneSettlement(next, es[1..]);
      ApplyStep(o, es[0]);
    }
  }

  /** The gateway payment an event reports, if it reports one. */
  function PaymentOf(e: PaymentEvent): Option<string>
  {
    match e
    case ClientVerified(_, p, _) => Some(p)
    case Captured(_, p, _) => Some(p)
    case PaymentFailed(_) => None
  }

  /** The payment reported by the event that settles the order, the first one
      that moves it into the paid state. */
  function FirstSettlement(o: Order, es: seq<PaymentEvent>): Option<string>
    decreases |es|
  {
    if es == [] || o.paymentStatus == Paid then None
    else
      var next := Apply(o, es[0]);
      if next.paymentStatus == Paid then PaymentOf(es[0])
      else FirstSettlement(next, es[1..])
  }

  /** An unpaid order ends paid exactly when some event settles it, and then it
      carries the payment reference of the first settling event: a later
      verification or capture with another payment cannot overwrite it. */
  lemma {:induction false} FirstSettlerWins(o: Order, es: seq<PaymentEvent>)
    requires o.paymentStatus != Paid
    ensures Run(o, es).paymentStatus == Paid <==> FirstSettlement(o, es).Some?
    ensures FirstSettlement(o, es).Some? ==> Run(o, es).gatewayPaymentRef == FirstSettlement(o, es)
    decreases |es|
  {
    if es != [] {
      var next := Apply(o, es[0]);
      if next.paymentStatus == Paid {
        PaidIsAbsorbing(next, es[1..]);
      } else {
        FirstSettlerWins(next, es[1..]);
      }
    }
  }

  /** A failed order can no longer be verified by the client, but a capture
      notification for its gateway order still settles it. */
  lemma FailedOrderOnlyCapturable(o: Order, orderRef: string, paymentRef: string, now: int)
    requires o.paymentStatus == Failed && o.gatewayOrderRef == Some(orderRef)
    ensures Apply(o, ClientVerified(orderRef, paymentRef, now)) == o
    ensures Apply(o, Captured(Some(orderRef), paymentRef, now)).paymentStatus == Paid
    ensures Apply(o, PaymentFailed(Some(orderRef))) == o
  {
  }

  /** Repeating an event changes nothing more: every event is idempotent. */
  lemma ApplyIdempotent(o: Order, e: PaymentEvent)
    ensures Apply(Apply(o, e), e) == Apply(o, e)
  {
  }
}
