/** POST /api/orders/create (src/app/api/orders/create/route.ts): the guard
    chain that admits a new order, the plan-to-package mapping, the price
    table, and the pending, inactive order it stores. */
module CreateRoute {
  import opened Common
  import opened Strings
  import opened OrderModel
  import opened Validations

  /** `planToPackageMap[planKey] || planKey`: the trial plan is the daily
      package, every other key is taken as a package name. */
  function PackageForPlan(planKey: string): string
  {
    if planKey == "trial" then "daily"
    else if planKey == "weekly" then "weekly"
    else if planKey == "monthly" then "monthly"
    else planKey
  }

  /** `PACKAGE_PRICES`, in rupees. */
  function PackagePrice(p: Package): int
  {
    match p
    case Daily => 70
    case Weekly => 455
    case Monthly => 1950
  }

  /** The plan keys the route accepts are exactly trial, daily, weekly and
      monthly; trial and daily both select the daily package. */
  lemma PlanSelectsPackage(planKey: string)
    ensures ParsePackage(PackageForPlan(planKey)).Some? <==>
              planKey in {"trial", "daily", "weekly", "monthly"}
    ensures planKey == "trial" ==> ParsePackage(PackageForPlan(planKey)) == Some(Daily)
    ensures planKey != "trial" ==> PackageForPlan(planKey) == planKey
  {
  }

  /** The request body. The handler destructures `planKey`, `plan.price` and the
      customer's four fields; an absent text field is written "" (both are
      falsy), an absent or zero price is `None` or `Some(0)`. */
  datatype CreateBody = CreateBody(
    planKey: string,
    price: Option<int>,
    fullName: string,
    phone: string,
    address: string,
    pincode: string)

  datatype CreateOutcome =
    | CreateRateLimited
    | InvalidPackage
    | IncompleteCustomer
    | InvalidPhone
    | InvalidPincode
    | TooManyOrders(recentOrderCount: nat)
    | SaveFailed
    | Created(orderId: string)

  function CreateStatus(r: CreateOutcome): int
  {
    match r
    case CreateRateLimited => 429
    case InvalidPackage => 400
    case IncompleteCustomer => 400
    case InvalidPhone => 400
    case InvalidPincode => 400
    case TooManyOrders(_) => 429
    case SaveFailed => 500
    case Created(_) => 201
  }

  /** Calls per client address and window admitted by the route. */
  const CREATE_MAX_REQUESTS: int := 10
  const CREATE_WINDOW_MS: int := 60000

  /** `checkSpamOrders(phone, 5, 3)`: a window of five minutes, three orders. */
  const SPAM_WINDOW_MS: int := 5 * 60 * 1000
  const SPAM_MAX_ORDERS: nat := 3

  /** The number of stored orders for exactly this phone string created within
      the spam window (`countDocuments` in checkSpamOrders). */
  function RecentOrders(orders: map<string, Order>, phone: string, now: int): nat
  {
    |set k | k in orders && orders[k].customer.phone == phone && orders[k].createdAt >= now - SPAM_WINDOW_MS|
  }

  /** `!customer?.fullName || !customer?.phone || ...`: every field present and non-empty. */
  predicate Complete(b: CreateBody)
  {
    b.fullName != "" && b.phone != "" && b.address != "" && b.pincode != ""
  }

  /** `plan?.price || PACKAGE_PRICES[selectedPackage]`: the client's price when
      it is given and non-zero, the table price otherwise. */
  function ChosenAmount(price: Option<int>, p: Package): (amount: int)
    ensures price.None? ==> amount == PackagePrice(p)
    ensures price.Some? && price.value != 0 ==> amount == price.value
    ensures price.Some? && price.value == 0 ==> amount == PackagePrice(p)
  {
    if price.Some? && price.value != 0 then price.value else PackagePrice(p)
  }

  /** `"ORD-" + Date.now()`. */
  function OrderIdAt(now: nat): (id: string)
    ensures StartsWith(id, "ORD-")
  {
    "ORD-" + Decimal(now)
  }

  /** Orders created at different milliseconds get different identifiers. */
  lemma OrderIdsDiffer(t1: nat, t2: nat)
    requires t1 != t2
    ensures OrderIdAt(t1) != OrderIdAt(t2)
  {
    DecimalInjective(t1, t2);
    assert OrderIdAt(t1)[4..] == Decimal(t1);
    assert OrderIdAt(t2)[4..] == Decimal(t2);
  }

  /** The document the route saves: the chosen package and amount, the
      customer's name taken from `fullName`, pending and inactive. */
  function NewOrder(b: CreateBody, p: Package, now: nat): Order
  {
    NewDocument(OrderIdAt(now), p, ChosenAmount(b.price, p),
                Customer(b.fullName, b.phone, b.address, b.pincode),
                Some(false), Some(Pending), now)
  }

  /** The handler, given whether the rate limiter admitted the call. Guards run
      in the order rate limit, package, completeness, phone, pincode, spam; the
      first that fails decides the reply and nothing is stored. A clash with an
      existing orderId (two orders in one millisecond) fails the save. */
  function Create(orders: map<string, Order>, allowed: bool, b: CreateBody, now: nat)
    : (r: (CreateOutcome, map<string, Order>))
    ensures !r.0.Created? ==> r.1 == orders
    ensures r.0.Created? <==>
              && allowed
              && ParsePackage(PackageForPlan(b.planKey)).Some?
              && Complete(b) && ValidatePhone(b.phone) && ValidatePincode(b.pincode)
              && !IsSpam(RecentOrders(orders, b.phone, now), SPAM_MAX_ORDERS)
              && OrderIdAt(now) !in orders
    ensures r.0.Created? ==>
              r.0.orderId == OrderIdAt(now) && r.0.orderId in r.1 && r.1 - {r.0.orderId} == orders
    ensures r.0.Created? && r.0.orderId in r.1 ==>
              var o := r.1[r.0.orderId];
              && o.orderId == r.0.orderId && o.package == ParsePackage(PackageForPlan(b.planKey)).value
              && o.paymentStatus == Pending && !o.active && o.status == Placed
              && (forall k: MealKind :: !MealOf(o.meals, k).delivered)
              && o.customer.name == b.fullName && o.customer.phone == b.phone
              && o.customer.address == b.address && o.customer.pincode == b.pincode
              && o.createdAt == now
              && o.totalAmount == ChosenAmount(b.price, o.package)
              && o.gatewayOrderRef.None? && o.gatewayPaymentRef.None?
    ensures Consistent(orders) ==> Consistent(r.1)
  {
    if !allowed then (CreateRateLimited, orders)
    else
      var selected := ParsePackage(PackageForPlan(b.planKey));
      if selected.None? then (InvalidPackage, orders)
      else if !Complete(b) then (IncompleteCustomer, orders)
      else if !ValidatePhone(b.phone) then (InvalidPhone, orders)
      else if !ValidatePincode(b.pincode) then (InvalidPincode, orders)
      else
        var recent := RecentOrders(orders, b.phone, now);
        if IsSpam(recent, SPAM_MAX_ORDERS) then (TooManyOrders(recent), orders)
        else
          var id := OrderIdAt(now);
          if id in orders then (SaveFailed, orders)
          else
            var o := NewOrder(b, selected.value, now);
            assert orders[id := o] - {id} == orders;
            (Created(id), orders[id := o])
  }

  /** The first failing guard decides the reply. */
  lemma FirstFailureDecides(orders: map<string, Order>, allowed: bool, b: CreateBody, now: nat)
    ensures !allowed ==> Create(orders, allowed, b, now).0 == CreateRateLimited
    ensures allowed && ParsePackage(PackageForPlan(b.planKey)).None? ==>
              Create(orders, allowed, b, now).0 == InvalidPackage
    ensures allowed && ParsePackage(PackageForPlan(b.planKey)).Some? && !Complete(b) ==>
              Create(orders, allowed, b, now).0 == IncompleteCustomer
    ensures allowed && ParsePackage(PackageForPlan(b.planKey)).Some? && Complete(b) && !ValidatePhone(b.phone) ==>
              Create(orders, allowed, b, now).0 == InvalidPhone
    ensures allowed && ParsePackage(PackageForPlan(b.planKey)).Some? && Complete(b) && ValidatePhone(b.phone)
              && !ValidatePincode(b.pincode) ==>
              Create(orders, allowed, b, now).0 == InvalidPincode
  {
  }

  /** A customer who already has three orders in the window is refused, and
      the reply carries the count. */
  lemma SpamRefused(orders: map<string, Order>, b: CreateBody, now: nat)
    requires ParsePackage(PackageForPlan(b.planKey)).Some? && Complete(b)
    requires ValidatePhone(b.phone) && ValidatePincode(b.pincode)
    requires RecentOrders(orders, b.phone, now) >= SPAM_MAX_ORDERS
    ensures Create(orders, true, b, now) == (TooManyOrders(RecentOrders(orders, b.phone, now)), orders)
  {
  }
}
