/** The order document of the meal-subscription store (src/models/Order.ts):
    its enums, its embedded customer and meals, the schema defaults, and the
    invariants a collection of orders keyed by `orderId` keeps. */
module OrderModel {
  import opened Common

  datatype Package = Daily | Weekly | Monthly
  datatype PaymentStatus = Pending | Paid | Failed
  datatype Status = Placed | Confirmed | Preparing | Delivered | Cancelled | Expired
  datatype MealKind = Breakfast | Lunch | Dinner

  /** One meal slot of the day: delivered or not, and when. */
  datatype Meal = Meal(delivered: bool, deliveredAt: Option<int>)
  datatype Meals = Meals(breakfast: Meal, lunch: Meal, dinner: Meal)
  datatype Customer = Customer(name: string, phone: string, address: string, pincode: string)

  /** An order document. Times are milliseconds since the epoch. The schema
      declares no field for the payment gateway's identifiers; the payment
      routes nevertheless filter on and write them, so they are carried here as
      `gatewayOrderRef` ("razorpay.orderId"), `gatewayPaymentRef`
      ("razorpay.paymentId"), `verifiedAt` and `paidAt`. */
  datatype Order = Order(
    orderId: string,
    package: Package,
    totalAmount: int,
    customer: Customer,
    meals: Meals,
    active: bool,
    startDate: Option<int>,
    endDate: Option<int>,
    status: Status,
    lastMealReset: int,
    paymentStatus: PaymentStatus,
    user: Option<string>,
    createdAt: int,
    gatewayOrderRef: Option<string>,
    gatewayPaymentRef: Option<string>,
    verifiedAt: Option<int>,
    paidAt: Option<int>)

  function PackageName(p: Package): string
  {
    match p
    case Daily => "daily"
    case Weekly => "weekly"
    case Monthly => "monthly"
  }

  /** The schema's `package` enum: a string names a package exactly when it is
      one of "daily", "weekly", "monthly". */
  function ParsePackage(s: string): (r: Option<Package>)
    ensures r.Some? ==> PackageName(r.value) == s
    ensures forall p: Package :: PackageName(p) == s ==> r == Some(p)
  {
    if s == "daily" then Some(Daily)
    else if s == "weekly" then Some(Weekly)
    else if s == "monthly" then Some(Monthly)
    else None
  }

  function MealName(k: MealKind): string
  {
    match k
    case Breakfast => "breakfast"
    case Lunch => "lunch"
    case Dinner => "dinner"
  }

  /** The meal names the mark-meal route accepts. */
  function ParseMeal(s: string): (r: Option<MealKind>)
    ensures r.Some? ==> MealName(r.value) == s
    ensures forall k: MealKind :: MealName(k) == s ==> r == Some(k)
  {
    if s == "breakfast" then Some(Breakfast)
    else if s == "lunch" then Some(Lunch)
    else if s == "dinner" then Some(Dinner)
    else None
  }

  function MealOf(ms: Meals, k: MealKind): Meal
  {
    match k
    case Breakfast => ms.breakfast
    case Lunch => ms.lunch
    case Dinner => ms.dinner
  }

  /** The meals with slot `k` replaced and the other two kept. */
  function WithMeal(ms: Meals, k: MealKind, m: Meal): (r: Meals)
    ensures MealOf(r, k) == m
    ensures forall j: MealKind :: j != k ==> MealOf(r, j) == MealOf(ms, j)
  {
    match k
    case Breakfast => ms.(breakfast := m)
    case Lunch => ms.(lunch := m)
    case Dinner => ms.(dinner := m)
  }

  /** The schema default of a meal slot. */
  const Undelivered: Meal := Meal(false, None)

  function UndeliveredMeals(): (ms: Meals)
    ensures forall k: MealKind :: !MealOf(ms, k).delivered && MealOf(ms, k).deliveredAt.None?
  {
    Meals(Undelivered, Undelivered, Undelivered)
  }

  /** The document mongoose builds from the values a caller supplies, filling
      in the schema defaults for the rest: `active` true unless given, status
      "placed", paymentStatus "pending" unless given, every meal undelivered,
      lastMealReset and createdAt the creation time, and none of the optional
      dates, user or gateway fields. */
  function NewDocument(orderId: string, pkg: Package, totalAmount: int, customer: Customer,
                       active: Option<bool>, paymentStatus: Option<PaymentStatus>, now: int): (o: Order)
    ensures o.orderId == orderId && o.package == pkg && o.totalAmount == totalAmount
    ensures o.customer == customer
    ensures o.active <==> (active.None? || active.value)
    ensures o.paymentStatus == Pending <==> (paymentStatus.None? || paymentStatus.value == Pending)
    ensures o.status == Placed
    ensures forall k: MealKind :: !MealOf(o.meals, k).delivered
    ensures o.createdAt == now && o.lastMealReset == now
    ensures o.gatewayOrderRef.None? && o.gatewayPaymentRef.None? && o.endDate.None?
  {
    Order(orderId, pkg, totalAmount, customer, UndeliveredMeals(),
          if active.Some? then active.value else true,
          None, None, Placed, now,
          if paymentStatus.Some? then paymentStatus.value else Pending,
          None, now, None, None, None, None)
  }

  /** An order that is active has been paid for, and only a paid order carries
      the gateway's payment identifier. */
  predicate OrderConsistent(o: Order)
  {
    && (o.active ==> o.paymentStatus == Paid)
    && (o.gatewayPaymentRef.Some? ==> o.paymentStatus == Paid)
  }

  /** The collection is keyed by the unique `orderId`, and every order in it is
      consistent. */
  ghost predicate Consistent(m: map<string, Order>)
  {
    forall k | k in m :: m[k].orderId == k && OrderConsistent(m[k])
  }

  /** Payment state only moves forward between two snapshots of the collection:
      no order disappears, no order returns to pending, and a paid order stays
      paid with the same payment identifier. */
  ghost predicate PaymentMonotone(m0: map<string, Order>, m1: map<string, Order>)
  {
    forall k | k in m0 ::
      && k in m1
      && m1[k].orderId == m0[k].orderId
      && (m0[k].paymentStatus != Pending ==> m1[k].paymentStatus != Pending)
      && (m0[k].paymentStatus == Paid ==>
            m1[k].paymentStatus == Paid && m1[k].gatewayPaymentRef == m0[k].gatewayPaymentRef)
  }

  /** No order carries a gateway order identifier. */
  ghost predicate NoGatewayRefs(m: map<string, Order>)
  {
    forall k | k in m :: m[k].gatewayOrderRef.None?
  }

  /** A listing sorted by `createdAt`, newest first (`sort({ createdAt: -1 })`). */
  predicate NewestFirst(rows: seq<Order>)
  {
    forall i, j | 0 <= i < j < |rows| :: rows[i].createdAt >= rows[j].createdAt
  }
}
