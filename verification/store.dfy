/** The server's state and its request handlers: the orders collection (keyed
    by orderId), the in-memory rate-limit and misuse stores of
    src/lib/validations.ts, and the configuration. Each handler runs its guards
    in the source's order and is proved to do exactly what the corresponding
    route function describes, keeping the collection consistent and moving
    payments only forward. */
module Store {
  import opened Common
  import opened OrderModel
  import opened Validations
  import opened RateLimit
  import opened Pagination
  import opened PaymentLifecycle
  import opened CreateRoute
  import opened PaymentOrderRoute
  import opened VerifyRoute
  import opened WebhookRoute
  import opened MarkMealRoute
  import opened DeactivateRoute
  import opened AdminOrdersRoute
  import opened ListRoute
  import opened Subscription

  /** The keys of the orders a query's filter selects. */
  function SelectedKeys(m: map<string, Order>, keep: Order -> bool): (ks: set<string>)
    ensures ks <= m.Keys
    ensures forall k | k in m :: k in ks <==> keep(m[k])
  {
    set k | k in m && keep(m[k])
  }

  /** A query's result sorted by `createdAt`, newest first: each selected order
      exactly once, nothing else. Orders created at the same instant may come
      in any order. */
  ghost predicate Listing(m: map<string, Order>, keep: Order -> bool, rows: seq<Order>)
  {
    && NewestFirst(rows)
    && (forall i | 0 <= i < |rows| :: rows[i].orderId in m && m[rows[i].orderId] == rows[i] && keep(rows[i]))
    && (forall i, j | 0 <= i < j < |rows| :: rows[i].orderId != rows[j].orderId)
    && (forall k | k in m && keep(m[k]) :: exists i | 0 <= i < |rows| :: rows[i].orderId == k)
  }

  /** Where an order goes in a newest-first listing: after every row at least
      as new. */
  function InsertPosition(rows: seq<Order>, o: Order): (p: nat)
    requires NewestFirst(rows)
    ensures p <= |rows|
    ensures forall i | 0 <= i < p :: rows[i].createdAt >= o.createdAt
    ensures forall i | p <= i < |rows| :: rows[i].createdAt < o.createdAt
  {
    if rows == [] || rows[0].createdAt < o.createdAt then 0
    else
      var p := 1 + InsertPosition(rows[1..], o);
      assert forall i | 1 <= i < |rows| :: rows[i] == rows[1..][i - 1];
      p
  }

  /** The listing with one more order in its place. */
  function InsertNewest(rows: seq<Order>, o: Order): (r: seq<Order>)
    requires NewestFirst(rows)
    ensures NewestFirst(r)
    ensures |r| == |rows| + 1
    ensures var p := InsertPosition(rows, o);
            && (forall i | 0 <= i < p :: r[i] == rows[i])
            && r[p] == o
            && (forall i | p < i < |r| :: r[i] == rows[i - 1])
  {
    var p := InsertPosition(rows, o);
    rows[..p] + [o] + rows[p..]
  }

  /** The loop state of a query: the rows are the taken orders, newest first,
      each once. */
  ghost predicate PartialListing(m: map<string, Order>, taken: set<string>, rows: seq<Order>)
  {
    && NewestFirst(rows)
    && (forall i | 0 <= i < |rows| :: rows[i].orderId in taken && rows[i].orderId in m && m[rows[i].orderId] == rows[i])
    && (forall i, j | 0 <= i < j < |rows| :: rows[i].orderId != rows[j].orderId)
    && (forall k | k in taken :: exists i | 0 <= i < |rows| :: rows[i].orderId == k)
  }

  /** The invariant of the query's loop: the selected keys split into those
      still to take and those taken, and the rows list the taken ones. */
  ghost predicate QueryState(m: map<string, Order>, keep: Order -> bool, remaining: set<string>,
                             taken: set<string>, rows: seq<Order>)
  {
    && remaining !! taken && remaining + taken == SelectedKeys(m, keep)
    && |rows| == |taken|
    && PartialListing(m, taken, rows)
  }

  /** Taking one more selected order keeps the invariant. */
  lemma QueryStep(m: map<string, Order>, keep: Order -> bool, remaining: set<string>, taken: set<string>,
                  rows: seq<Order>, k: string)
    requires QueryState(m, keep, remaining, taken, rows)
    requires k in remaining && m[k].orderId == k
    ensures QueryState(m, keep, remaining - {k}, taken + {k}, InsertNewest(rows, m[k]))
  {
    InsertExtendsListing(m, taken, rows, k);
  }

  /** Once every selected order is taken, the rows are the query's listing. */
  lemma CompleteListing(m: map<string, Order>, keep: Order -> bool, rows: seq<Order>)
    requires PartialListing(m, SelectedKeys(m, keep), rows)
    ensures Listing(m, keep, rows)
  {
  }

  lemma InsertExtendsListing(m: map<string, Order>, taken: set<string>, rows: seq<Order>, k: string)
    requires PartialListing(m, taken, rows)
    requires k in m && m[k].orderId == k && k !in taken
    ensures PartialListing(m, taken + {k}, InsertNewest(rows, m[k]))
  {
    InsertKeepsRowsStored(m, taken, rows, k);
    InsertKeepsIdsDistinct(m, taken, rows, k);
    InsertCoversTaken(m, taken, rows, k);
  }

  lemma InsertKeepsRowsStored(m: map<string, Order>, taken: set<string>, rows: seq<Order>, k: string)
    requires PartialListing(m, taken, rows)
    requires k in m && m[k].orderId == k
    ensures var next := InsertNewest(rows, m[k]);
            forall i | 0 <= i < |next| :: next[i].orderId in taken + {k} && next[i].orderId in m && m[next[i].orderId] == next[i]
  {
    var p := InsertPosition(rows, m[k]);
    var next := InsertNewest(rows, m[k]);
    forall i | 0 <= i < |next|
      ensures next[i].orderId in taken + {k} && next[i].orderId in m && m[next[i].orderId] == next[i]
    {
      if i > p {
        assert next[i] == rows[i - 1];
      }
    }
  }

  lemma InsertKeepsIdsDistinct(m: map<string, Order>, taken: set<string>, rows: seq<Order>, k: string)
    requires PartialListing(m, taken, rows)
    requires k in m && m[k].orderId == k && k !in taken
    ensures var next := InsertNewest(rows, m[k]);
            forall i, j | 0 <= i < j < |next| :: next[i].orderId != next[j].orderId
  {
    var p := InsertPosition(rows, m[k]);
    var next := InsertNewest(rows, m[k]);
    forall i, j | 0 <= i < j < |next|
      ensures next[i].orderId != next[j].orderId
    {
      if i > p {
        assert next[i] == rows[i - 1] && next[j] == rows[j - 1];
      } else if j > p {
        assert next[j] == rows[j - 1];
      }
    }
  }

  lemma InsertCoversTaken(m: map<string, Order>, taken: set<string>, rows: seq<Order>, k: string)
    requires PartialListing(m, taken, rows)
    requires k in m && m[k].orderId == k
    ensures var next := InsertNewest(rows, m[k]);
            forall j | j in taken + {k} :: exists i | 0 <= i < |next| :: next[i].orderId == j
  {
    var p := InsertPosition(rows, m[k]);
    var next := InsertNewest(rows, m[k]);
    forall j | j in taken + {k}
      ensures exists i | 0 <= i < |next| :: next[i].orderId == j
    {
      if j == k {
        assert next[p].orderId == j;
      } else {
        var i :| 0 <= i < |rows| && rows[i].orderId == j;
        if i < p {
          assert next[i].orderId == j;
        } else {
          assert next[i + 1].orderId == j;
        }
      }
    }
  }

  /** The filter of every query the listing routes run with no filter. */
  predicate Everything(o: Order)
  {
    true
  }

  /** The payment-order route as evidently intended: the gateway order's id
      stored with the order, so that the verification and the notifications can
      find it. */
  function BindGatewayOrder(orders: map<string, Order>, orderId: string, gatewayOrderId: string)
    : (r: map<string, Order>)
    requires orderId in orders
    ensures r.Keys == orders.Keys
    ensures r[orderId].gatewayOrderRef == Some(gatewayOrderId)
    ensures r[orderId].(gatewayOrderRef := orders[orderId].gatewayOrderRef) == orders[orderId]
    ensures forall k | k in orders && k != orderId :: r[k] == orders[k]
  {
    orders[orderId := orders[orderId].(gatewayOrderRef := Some(gatewayOrderId))]
  }

  /** With the binding, the payment the gateway reports for that gateway order
      verifies: the order becomes paid and active with the reported payment. */
  lemma BindingEnablesVerification(orders: map<string, Order>, gatewayOrderId: string, b: VerifyBody, now: int,
                                   cfg: Config)
    requires AllPresent(b) && AllText(b) && b.orderId.text in orders
    requires b.gatewayOrderId.text == gatewayOrderId
    requires orders[b.orderId.text].paymentStatus == Pending
    requires now - orders[b.orderId.text].createdAt <= MAX_ORDER_AGE_MS
    requires cfg.gatewayKeySecret.Some? && cfg.gatewayKeySecret.value != "" && SignatureValid(cfg, b)
    ensures var bound := BindGatewayOrder(orders, b.orderId.text, gatewayOrderId);
            && Verify(bound, true, b, now, cfg).0 == Verified
            && Verify(bound, true, b, now, cfg).1[b.orderId.text].paymentStatus == Paid
            && Verify(bound, true, b, now, cfg).1[b.orderId.text].gatewayPaymentRef == Some(b.gatewayPaymentId.text)
  {
    var bound := BindGatewayOrder(orders, b.orderId.text, gatewayOrderId);
    BoundOrderVerifies(bound, b, now, cfg);
  }

  /** Binding keeps the collection consistent and leaves payments alone. */
  lemma BindingKeepsInvariants(orders: map<string, Order>, orderId: string, gatewayOrderId: string)
    requires orderId in orders && Consistent(orders)
    ensures Consistent(BindGatewayOrder(orders, orderId, gatewayOrderId))
    ensures PaymentMonotone(orders, BindGatewayOrder(orders, orderId, gatewayOrderId))
  {
  }

  class OrderStore {
    var orders: map<string, Order>
    const limiter: RateLimiter
    const misuse: AdminMisuseTracker
    const cfg: Config

    ghost predicate Valid()
      reads this
    {
      Consistent(orders)
    }

    constructor (cfg: Config)
      ensures this.cfg == cfg && orders == map[] && Valid()
      ensures fresh(limiter) && fresh(misuse) && limiter.store == map[] && misuse.log == map[]
    {
      this.cfg := cfg;
      orders := map[];
      limiter := new RateLimiter();
      misuse := new AdminMisuseTracker();
    }

    /** `Order.find(filter).sort({ createdAt: -1 })`: the selected orders,
        newest first, and as many as `countDocuments(filter)` counts. */
    method Query(keep: Order -> bool) returns (rows: seq<Order>)
      requires Valid()
      ensures Listing(orders, keep, rows)
      ensures |rows| == |SelectedKeys(orders, keep)|
    {
      rows := [];
      var remaining := SelectedKeys(orders, keep);
      ghost var taken: set<string> := {};
      while remaining != {}
        invariant QueryState(orders, keep, remaining, taken, rows)
        decreases remaining
      {
        var k :| k in remaining;
        QueryStep(orders, keep, remaining, taken, rows, k);
        rows := InsertNewest(rows, orders[k]);
        remaining := remaining - {k};
        taken := taken + {k};
      }
      CompleteListing(orders, keep, rows);
    }

    /** POST /api/orders/create from the client address `ip`. */
    method Create(ip: string, b: CreateBody, now: nat) returns (r: CreateOutcome)
      requires Valid()
      modifies this, limiter
      ensures Valid() && PaymentMonotone(old(orders), orders)
      ensures limiter.store == CheckStore(old(limiter.store), ip, CREATE_MAX_REQUESTS, CREATE_WINDOW_MS, now).1
      ensures (r, orders) ==
                CreateRoute.Create(old(orders), CheckStore(old(limiter.store), ip, CREATE_MAX_REQUESTS,
                                                           CREATE_WINDOW_MS, now).0.allowed, b, now)
    {
      var v := limiter.Check(ip, CREATE_MAX_REQUESTS, CREATE_WINDOW_MS, now);
      if !v.allowed {
        return CreateRateLimited;
      }
      var selected := ParsePackage(PackageForPlan(b.planKey));
      if selected.None? {
        return InvalidPackage;
      }
      if !Complete(b) {
        return IncompleteCustomer;
      }
      if !ValidatePhone(b.phone) {
        return InvalidPhone;
      }
      if !ValidatePincode(b.pincode) {
        return InvalidPincode;
      }
      var recent := RecentOrders(orders, b.phone, now);
      if IsSpam(recent, SPAM_MAX_ORDERS) {
        return TooManyOrders(recent);
      }
      var id := OrderIdAt(now);
      if id in orders {
        return SaveFailed;
      }
      orders := orders[id := NewOrder(b, selected.value, now)];
      r := Created(id);
    }

    /** POST /api/payments/create-order, given the gateway's answer to the
        request (`None` when the call throws). The collection is only read. */
    method CreatePaymentOrder(ip: string, orderId: Field, gateway: Option<GatewayOrder>, now: int)
      returns (r: PaymentOrderOutcome)
      requires Valid()
      modifies limiter
      ensures limiter.store == CheckStore(old(limiter.store), ip, PAYMENT_MAX_REQUESTS, PAYMENT_WINDOW_MS, now).1
      ensures r == Reply(Prepare(orders, CheckStore(old(limiter.store), ip, PAYMENT_MAX_REQUESTS,
                                                    PAYMENT_WINDOW_MS, now).0.allowed, orderId, cfg),
                         gateway, cfg)
    {
      var v := limiter.Check(ip, PAYMENT_MAX_REQUESTS, PAYMENT_WINDOW_MS, now);
      var prepared := Prepare(orders, v.allowed, orderId, cfg);
      r := Reply(prepared, gateway, cfg);
    }

    /** The same route as evidently intended: when the gateway answers, its
        order id is stored with the order before the reply. */
    method CreatePaymentOrderAndBind(ip: string, orderId: Field, gateway: Option<GatewayOrder>, now: int)
      returns (r: PaymentOrderOutcome)
      requires Valid()
      modifies this, limiter
      ensures Valid() && PaymentMonotone(old(orders), orders)
      ensures limiter.store == CheckStore(old(limiter.store), ip, PAYMENT_MAX_REQUESTS, PAYMENT_WINDOW_MS, now).1
      ensures var p := Prepare(old(orders), CheckStore(old(limiter.store), ip, PAYMENT_MAX_REQUESTS,
                                                         PAYMENT_WINDOW_MS, now).0.allowed, orderId, cfg);
              && r == Reply(p, gateway, cfg)
              && orders == if p.Send? && gateway.Some? then BindGatewayOrder(old(orders), p.orderId, gateway.value.id)
                           else old(orders)
    {
      var v := limiter.Check(ip, PAYMENT_MAX_REQUESTS, PAYMENT_WINDOW_MS, now);
      var prepared := Prepare(orders, v.allowed, orderId, cfg);
      if prepared.Send? && gateway.Some? {
        BindingKeepsInvariants(orders, prepared.orderId, gateway.value.id);
        orders := BindGatewayOrder(orders, prepared.orderId, gateway.value.id);
      }
      r := Reply(prepared, gateway, cfg);
    }

    /** POST /api/payments/verify from the client address `ip`. */
    method Verify(ip: string, b: VerifyBody, now: int) returns (r: VerifyOutcome)
      requires Valid()
      modifies this, limiter
      ensures Valid() && PaymentMonotone(old(orders), orders)
      ensures limiter.store == CheckStore(old(limiter.store), ip, VERIFY_MAX_REQUESTS, VERIFY_WINDOW_MS, now).1
      ensures (r, orders) ==
                VerifyRoute.Verify(old(orders), CheckStore(old(limiter.store), ip, VERIFY_MAX_REQUESTS,
                                                           VERIFY_WINDOW_MS, now).0.allowed, b, now, cfg)
    {
      var v := limiter.Check(ip, VERIFY_MAX_REQUESTS, VERIFY_WINDOW_MS, now);
      VerifyKeepsInvariants(orders, v.allowed, b, now, cfg);
      if !v.allowed {
        return VerifyRateLimited;
      }
      if !AllPresent(b) {
        return MissingDetails;
      }
      if !AllText(b) {
        return InvalidFormat;
      }
      var id := b.orderId.text;
      if id !in orders {
        return VerifyOrderNotFound;
      }
      var o := orders[id];
      if o.paymentStatus == Paid {
        return AlreadyVerified;
      }
      if now - o.createdAt > MAX_ORDER_AGE_MS {
        return OrderExpired;
      }
      if cfg.gatewayKeySecret.None? || cfg.gatewayKeySecret.value == "" {
        return VerifyConfigError;
      }
      if !SignatureValid(cfg, b) {
        return InvalidSignature;
      }
      if !VerifyMatches(o, b.gatewayOrderId.text) {
        return Conflict;
      }
      orders := orders[id := MarkVerified(o, b.gatewayPaymentId.text, now)];
      r := Verified;
    }

    /** POST /api/payments/webhook, given the raw body, the signature header and
        the body as parsed (`None` when it is not JSON). */
    method Webhook(rawBody: string, signature: Option<string>, parsed: Option<WebhookEvent>, now: int)
      returns (r: WebhookOutcome)
      requires Valid()
      modifies this
      ensures Valid() && PaymentMonotone(old(orders), orders)
      ensures Effect(old(orders), orders, Decide(cfg, rawBody, signature, parsed), now)
      ensures r == Outcome(Decide(cfg, rawBody, signature, parsed))
    {
      var a := Decide(cfg, rawBody, signature, parsed);
      Notify(a, now);
      r := Outcome(a);
    }

    /** The webhook as intended: a payment that names no gateway order is
        acknowledged without a write, so only the order bound to the named
        gateway order can change. */
    method WebhookBound(rawBody: string, signature: Option<string>, parsed: Option<WebhookEvent>, now: int)
      returns (r: WebhookOutcome)
      requires Valid()
      modifies this
      ensures Valid() && PaymentMonotone(old(orders), orders)
      ensures Effect(old(orders), orders, DecideBound(cfg, rawBody, signature, parsed), now)
      ensures r == Outcome(Decide(cfg, rawBody, signature, parsed))
    {
      var a := DecideBound(cfg, rawBody, signature, parsed);
      Notify(a, now);
      r := Outcome(a);
    }

    /** `findOneAndUpdate` with the action's filter and update. */
    method Notify(a: WebhookAction, now: int)
      requires Valid()
      modifies this
      ensures Valid() && PaymentMonotone(old(orders), orders)
      ensures Effect(old(orders), orders, a, now)
    {
      if !a.NoWrite? && exists k :: k in orders && Matches(a, orders[k]) {
        var k :| k in orders && Matches(a, orders[k]);
        orders := orders[k := Apply(orders[k], EventOf(a, now))];
      }
      EffectKeepsInvariants(old(orders), orders, a, now);
    }

    /** POST /api/admin/orders/mark-meal. */
    method MarkMeal(token: Option<string>, orderId: string, meal: string, now: int) returns (r: MarkMealOutcome)
      requires Valid()
      modifies this
      ensures Valid() && PaymentMonotone(old(orders), orders)
      ensures (r, orders) == MarkMealRoute.MarkMeal(old(orders), token, orderId, meal, now, cfg)
    {
      MarkMealKeepsInvariants(orders, token, orderId, meal, now, cfg);
      if token.None? || token.value == "" || !ValidateAdminToken(token, cfg.adminToken) {
        return Unauthorized;
      }
      if orderId == "" {
        return MissingOrderId;
      }
      var kind := ParseMeal(meal);
      if meal == "" || kind.None? {
        return InvalidMeal;
      }
      if orderId !in orders {
        return MealOrderNotFound;
      }
      var o := orders[orderId];
      if o.paymentStatus != Paid {
        return PaymentNotConfirmed(o.paymentStatus);
      }
      if MealOf(o.meals, kind.value).delivered {
        return AlreadyDelivered(kind.value);
      }
      orders := orders[orderId := DeliverMeal(o, kind.value, now)];
      r := MealMarked(kind.value);
    }

    /** POST /api/orders/deactivate. */
    method Deactivate(orderId: string) returns (r: DeactivateOutcome)
      requires Valid()
      modifies this
      ensures Valid() && PaymentMonotone(old(orders), orders)
      ensures (r, orders) == DeactivateRoute.Deactivate(old(orders), orderId)
    {
      DeactivateKeepsInvariants(orders, orderId);
      if orderId == "" {
        return DeactivateMissingId;
      }
      if orderId !in orders {
        return DeactivateNotFound;
      }
      orders := orders[orderId := Cancel(orders[orderId])];
      r := Deactivated(orderId);
    }

    /** GET /api/admin/orders from the client address `ip`, for the
        administrator the session names (if any). `rows` is the listing the
        query returned. */
    method AdminListOrders(ip: string, admin: Option<string>, pageParam: Option<int>, limitParam: Option<int>,
                           now: int)
      returns (r: AdminListOutcome, rows: seq<Order>)
      requires Valid()
      modifies this, limiter, misuse
      ensures Valid() && PaymentMonotone(old(orders), orders)
      ensures limiter.store == CheckStore(old(limiter.store), ip, ADMIN_MAX_REQUESTS, ADMIN_WINDOW_MS, now).1
      ensures var allowed := CheckStore(old(limiter.store), ip, ADMIN_MAX_REQUESTS, ADMIN_WINDOW_MS, now).0.allowed;
              && (!allowed ==> r == AdminRateLimited && orders == old(orders) && misuse.log == old(misuse.log))
              && (allowed && admin.None? ==>
                    r == AdminUnauthorized && orders == old(orders) && misuse.log == old(misuse.log))
              && (allowed && admin.Some? ==>
                    var check := MisuseCheck(old(misuse.log), admin.value, FETCH_ACTION, FETCH_WINDOW_SECONDS,
                                             FETCH_MAX_ACTIONS, now);
                    var out := AdminList(rows, allowed, admin, check.0, pageParam, limitParam, now);
                    && misuse.log == check.1
                    && Listing(old(orders), Listed, rows)
                    && r == out.0
                    && orders == ResetAll(old(orders), out.1, now))
    {
      rows := [];
      var v := limiter.Check(ip, ADMIN_MAX_REQUESTS, ADMIN_WINDOW_MS, now);
      if !v.allowed {
        return AdminRateLimited, rows;
      }
      if admin.None? {
        return AdminUnauthorized, rows;
      }
      var abuse := misuse.Check(admin.value, FETCH_ACTION, FETCH_WINDOW_SECONDS, FETCH_MAX_ACTIONS, now);
      rows := Query(Listed);
      if !abuse.allowed {
        r := AdminMisuse(if abuse.reason.Some? then abuse.reason.value else "Too many requests. Please try again later.");
        return;
      }
      r := ServeAdminPage(rows, ParamOr(pageParam, DEFAULT_PAGE), ParamOr(limitParam, DEFAULT_ADMIN_LIMIT), now);
    }

    /** The admin listing past its guards: the page, the `updateMany` of the
        reset, and the `forEach` that resets the reply's rows. */
    method ServeAdminPage(rows: seq<Order>, page: int, limit: int, now: int) returns (r: AdminListOutcome)
      requires Valid()
      modifies this
      ensures Valid() && PaymentMonotone(old(orders), orders)
      ensures r == ServePage(rows, page, limit, now).0
      ensures orders == ResetAll(old(orders), ServePage(rows, page, limit, now).1, now)
    {
      var slice := PageSlice(rows, Skip(page, limit), limit);
      if slice.None? {
        assert ResetAll(orders, {}, now) == orders;
        return AdminFetchFailed;
      }
      var pageRows := slice.value;
      var ids := ResetIds(pageRows, now);
      ResetAllKeepsInvariants(orders, ids, now);
      if ids != {} {
        orders := ResetAll(orders, ids, now);
      } else {
        assert ResetAll(orders, ids, now) == orders;
      }
      var shown := ShowRows(pageRows, now);
      r := AdminPage(shown, page, limit, |rows|, TotalPages(|rows|, limit));
    }

    /** The `forEach` over the page rows: each row that needed a reset is
        shown reset. */
    static method ShowRows(pageRows: seq<Order>, now: int) returns (shown: seq<Order>)
      ensures shown == seq(|pageRows|, i requires 0 <= i < |pageRows| => Shown(pageRows[i], now))
      ensures forall i | 0 <= i < |shown| :: !NeedsReset(shown[i], now)
    {
      shown := pageRows;
      for i := 0 to |pageRows|
        invariant |shown| == |pageRows|
        invariant forall j | 0 <= j < i :: shown[j] == Shown(pageRows[j], now)
        invariant forall j | i <= j < |pageRows| :: shown[j] == pageRows[j]
      {
        if NeedsReset(pageRows[i], now) {
          shown := shown[i := ResetMeals(pageRows[i], now)];
        }
      }
    }

    /** GET /api/orders/list from the client address `ip`, serving pages with
        the limit clamped to 1..100 (the cap as written lets a zero limit list
        every order, see `ListRoute.ZeroLimitListsEverything`). `rows` is the
        listing the query returned. */
    method ListOrders(ip: string, pageParam: Option<int>, limitParam: Option<int>, now: int)
      returns (r: ListOutcome, rows: seq<Order>)
      requires Valid()
      modifies limiter
      ensures limiter.store == CheckStore(old(limiter.store), ip, LIST_MAX_REQUESTS, LIST_WINDOW_MS, now).1
      ensures Listing(orders, Everything, rows) && |rows| == |orders|
      ensures r == CappedListOrders(rows, CheckStore(old(limiter.store), ip, LIST_MAX_REQUESTS,
                                               LIST_WINDOW_MS, now).0.allowed, pageParam, limitParam)
      ensures r.ListPage? ==> |r.orders| <= MAX_LIST_LIMIT
    {
      rows := Query(Everything);
      assert SelectedKeys(orders, Everything) == orders.Keys;
      var v := limiter.Check(ip, LIST_MAX_REQUESTS, LIST_WINDOW_MS, now);
      if !v.allowed {
        return ListRateLimited, rows;
      }
      var page := ListPageNumber(pageParam);
      var limit := CappedListLimit(limitParam);
      var slice := PageSlice(rows, Skip(page, limit), limit);
      if slice.None? {
        return ListFailed, rows;
      }
      r := ListPage(|slice.value|, |rows|, TotalPages(|rows|, limit), page, slice.value);
    }

    /** `autoExpireSubscriptions()`: the `updateMany` of the expiry, reporting
        how many orders it modified. */
    method AutoExpire(now: int) returns (expiredCount: nat)
      requires Valid()
      modifies this
      ensures Valid() && PaymentMonotone(old(orders), orders)
      ensures orders == ExpireAll(old(orders), now)
      ensures expiredCount == |ExpiringKeys(old(orders), now)|
    {
      expiredCount := |ExpiringKeys(orders, now)|;
      ExpireAllKeepsInvariants(orders, now);
      orders := ExpireAll(orders, now);
    }

    /** `hasActiveSubscription(userId)`: runs the expiry, then looks for an
        active order of the user whose end date is not past. The answer is the
        one the collection gave before the expiry. */
    method HasActiveSubscription(userId: string, now: int) returns (found: bool)
      requires Valid()
      modifies this
      ensures Valid() && PaymentMonotone(old(orders), orders)
      ensures orders == ExpireAll(old(orders), now)
      ensures found <==> LiveKeys(old(orders), userId, now) != {}
    {
      var _ := AutoExpire(now);
      ExpiryPreservesLiveOrders(old(orders), userId, now);
      found := LiveKeys(orders, userId, now) != {};
    }

    /** `getActiveSubscription(userId)`: runs the expiry, then returns one such
        order, if any. */
    method GetActiveSubscription(userId: string, now: int) returns (active: Option<Order>)
      requires Valid()
      modifies this
      ensures Valid() && PaymentMonotone(old(orders), orders)
      ensures orders == ExpireAll(old(orders), now)
      ensures active.Some? <==> LiveKeys(old(orders), userId, now) != {}
      ensures active.Some? ==> active.value.orderId in LiveKeys(old(orders), userId, now)
                               && active.value == old(orders)[active.value.orderId]
    {
      var _ := AutoExpire(now);
      ExpiryPreservesLiveOrders(old(orders), userId, now);
      var live := LiveKeys(orders, userId, now);
      if live == {} {
        return None;
      }
      var k :| k in live;
      active := Some(orders[k]);
    }
  }
}
