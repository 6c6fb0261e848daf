/** GET /api/admin/orders (src/app/api/admin/orders/route.ts): the paid and
    active orders, newest first, one page at a time, behind a per-address rate
    limit, the administrator's session and a per-administrator fetch limit. The
    orders of the page whose meals were last reset on an earlier day have their
    three meals reset, in the store and in the reply. */
module AdminOrdersRoute {
  import opened Common
  import opened OrderModel
  import opened Pagination
  import opened RateLimit

  const ADMIN_MAX_REQUESTS: int := 60
  const ADMIN_WINDOW_MS: int := 60000
  const FETCH_ACTION: string := "fetch_orders"
  const FETCH_WINDOW_SECONDS: int := 60
  const FETCH_MAX_ACTIONS: int := 30
  const DEFAULT_PAGE: int := 1
  const DEFAULT_ADMIN_LIMIT: int := 20

  /** The listing's filter: `{ active: true, paymentStatus: "paid" }`. */
  predicate Listed(o: Order)
  {
    o.active && o.paymentStatus == Paid
  }

  /** The day an instant falls on (days since the epoch). */
  function DayOf(t: int): int
  {
    t / MS_PER_DAY
  }

  /** An order is reset when it is not a daily package and its meals were last
      reset on a day before today. */
  predicate NeedsReset(o: Order, now: int)
  {
    o.package != Daily && DayOf(o.lastMealReset) < DayOf(now)
  }

  /** The reset update: all three meals undelivered without a delivery time,
      and `lastMealReset` now; nothing else changes. */
  function ResetMeals(o: Order, now: int): (r: Order)
    ensures forall k: MealKind :: !MealOf(r.meals, k).delivered && MealOf(r.meals, k).deliveredAt.None?
    ensures r.lastMealReset == now
    ensures r.(meals := o.meals, lastMealReset := o.lastMealReset) == o
  {
    o.(meals := UndeliveredMeals(), lastMealReset := now)
  }

  /** A reset order does not need another reset the same day. */
  lemma ResetOrderIsCurrent(o: Order, now: int)
    ensures !NeedsReset(ResetMeals(o, now), now)
  {
  }

  /** `updateMany({ orderId: { $in: ids } }, ...)`: the reset applied to the
      named orders only. */
  function ResetAll(orders: map<string, Order>, ids: set<string>, now: int): (r: map<string, Order>)
    ensures r.Keys == orders.Keys
    ensures forall k | k in orders :: r[k] == if k in ids then ResetMeals(orders[k], now) else orders[k]
  {
    map k | k in orders :: if k in ids then ResetMeals(orders[k], now) else orders[k]
  }

  /** The reset keeps the store consistent, leaves payments alone, and after it
      none of the reset orders needs a reset again that day. */
  lemma ResetAllKeepsInvariants(orders: map<string, Order>, ids: set<string>, now: int)
    requires Consistent(orders)
    ensures Consistent(ResetAll(orders, ids, now)) && PaymentMonotone(orders, ResetAll(orders, ids, now))
    ensures NoGatewayRefs(orders) ==> NoGatewayRefs(ResetAll(orders, ids, now))
    ensures forall k | k in orders && k in ids :: !NeedsReset(ResetAll(orders, ids, now)[k], now)
  {
  }

  /** The page and limit: `parseInt(param || default)`; `None` stands for an
      absent or empty parameter. */
  function ParamOr(p: Option<int>, default: int): int
  {
    if p.Some? then p.value else default
  }

  datatype AdminListOutcome =
    | AdminRateLimited
    | AdminUnauthorized
    | AdminMisuse(reason: string)
    | AdminFetchFailed
    | AdminPage(orders: seq<Order>, page: int, limit: int, total: nat, totalPages: Option<int>)

  function AdminListStatus(r: AdminListOutcome): int
  {
    match r
    case AdminRateLimited => 429
    case AdminUnauthorized => 401
    case AdminMisuse(_) => 429
    case AdminFetchFailed => 500
    case AdminPage(_, _, _, _, _) => 200
  }

  /** A page row as the reply shows it: reset when it needed a reset. */
  function Shown(o: Order, now: int): (r: Order)
    ensures !NeedsReset(r, now)
    ensures NeedsReset(o, now) ==> r == ResetMeals(o, now)
    ensures !NeedsReset(o, now) ==> r == o
  {
    if NeedsReset(o, now) then ResetMeals(o, now) else o
  }

  /** The orderIds of the page rows that need a reset. */
  function ResetIds(page: seq<Order>, now: int): (ids: set<string>)
    ensures forall i | 0 <= i < |page| && NeedsReset(page[i], now) :: page[i].orderId in ids
    ensures forall id | id in ids :: exists i :: 0 <= i < |page| && NeedsReset(page[i], now) && page[i].orderId == id
  {
    set i | 0 <= i < |page| && NeedsReset(page[i], now) :: page[i].orderId
  }

  /** The handler, given the listed orders newest first, whether the rate
      limiter admitted the call, the administrator the session names (if any)
      and the fetch-limit verdict for that administrator. Returns the reply and
      the orderIds to reset. */
  function AdminList(rows: seq<Order>, allowed: bool, admin: Option<string>, misuse: MisuseVerdict,
                     pageParam: Option<int>, limitParam: Option<int>, now: int)
    : (r: (AdminListOutcome, set<string>))
    ensures !r.0.AdminPage? ==> r.1 == {}
    ensures r.0.AdminPage? <==>
              allowed && admin.Some? && misuse.allowed
              && Skip(ParamOr(pageParam, DEFAULT_PAGE), ParamOr(limitParam, DEFAULT_ADMIN_LIMIT)) >= 0
    ensures r.0.AdminPage? ==>
              && r.0.page == ParamOr(pageParam, DEFAULT_PAGE) && r.0.limit == ParamOr(limitParam, DEFAULT_ADMIN_LIMIT)
              && r.0.total == |rows| && r.0.totalPages == TotalPages(|rows|, r.0.limit)
    ensures r.0.AdminPage? ==>
              var page := PageSlice(rows, Skip(r.0.page, r.0.limit), r.0.limit).value;
              && |r.0.orders| == |page|
              && (forall i | 0 <= i < |page| :: r.0.orders[i] == Shown(page[i], now))
              && r.1 == ResetIds(page, now)
  {
    if !allowed then (AdminRateLimited, {})
    else if admin.None? then (AdminUnauthorized, {})
    else if !misuse.allowed then
      (AdminMisuse(if misuse.reason.Some? then misuse.reason.value else "Too many requests. Please try again later."), {})
    else
      ServePage(rows, ParamOr(pageParam, DEFAULT_PAGE), ParamOr(limitParam, DEFAULT_ADMIN_LIMIT), now)
  }

  /** The handler past its guards: the page of the listing, its rows shown
      after the reset, and the orderIds to reset. */
  function ServePage(rows: seq<Order>, page: int, limit: int, now: int): (r: (AdminListOutcome, set<string>))
    ensures r.0.AdminPage? || r.0.AdminFetchFailed?
  {
    var slice := PageSlice(rows, Skip(page, limit), limit);
    if slice.None? then (AdminFetchFailed, {})
    else
      var shown := seq(|slice.value|, i requires 0 <= i < |slice.value| => Shown(slice.value[i], now));
      (AdminPage(shown, page, limit, |rows|, TotalPages(|rows|, limit)), ResetIds(slice.value, now))
  }

  /** Only listed orders appear in the reply, at most `limit` of them for a
      non-zero limit, none of them due a reset, and in the listing's order. */
  lemma PageShowsListedOrders(rows: seq<Order>, allowed: bool, admin: Option<string>, misuse: MisuseVerdict,
                              pageParam: Option<int>, limitParam: Option<int>, now: int)
    requires forall i | 0 <= i < |rows| :: Listed(rows[i])
    requires NewestFirst(rows)
    ensures var r := AdminList(rows, allowed, admin, misuse, pageParam, limitParam, now).0;
            r.AdminPage? ==>
              && (r.limit != 0 ==> |r.orders| <= Abs(r.limit))
              && (forall i | 0 <= i < |r.orders| :: Listed(r.orders[i]) && !NeedsReset(r.orders[i], now))
              && NewestFirst(r.orders)
  {
    var r := AdminList(rows, allowed, admin, misuse, pageParam, limitParam, now).0;
    if r.AdminPage? {
      var page := PageSlice(rows, Skip(r.page, r.limit), r.limit).value;
      assert forall i | 0 <= i < |page| :: r.orders[i].createdAt == page[i].createdAt;
    }
  }
}
