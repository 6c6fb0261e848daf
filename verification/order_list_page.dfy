/** The administrator's order list (src/app/admin/OrderList/page.tsx): the
    search over the orders, the days left of each subscription, the "Expiring
    Soon" flag, the days-left badge and the short orderId shown on each card.
    Instants are milliseconds; `now` is the page's clock reading. */
module OrderListPage {
  import opened Common
  import opened Strings
  import opened Dashboard
  import opened CreateRoute

  /** The fields of an order the list reads; a missing end date is `None`. */
  datatype ListedOrder = ListedOrder(orderId: string, customerName: string, endDate: Option<int>)

  /** The search: the orders whose name or orderId contains the term, ignoring
      ASCII case, in their original order. */
  function SearchOrders(orders: seq<ListedOrder>, searchTerm: string): (r: seq<ListedOrder>)
    ensures |r| <= |orders|
    ensures forall o | o in r :: o in orders && MatchesSearch(o.customerName, o.orderId, searchTerm)
    ensures forall o | o in orders && MatchesSearch(o.customerName, o.orderId, searchTerm) :: o in r
  {
    if orders == [] then []
    else
      var rest := SearchOrders(orders[1..], searchTerm);
      if MatchesSearch(orders[0].customerName, orders[0].orderId, searchTerm) then [orders[0]] + rest else rest
  }

  /** An empty search term keeps every order, in order. */
  lemma {:induction false} EmptyTermKeepsAll(orders: seq<ListedOrder>)
    ensures SearchOrders(orders, "") == orders
  {
    if orders != [] {
      EmptyTermMatches(orders[0].customerName, orders[0].orderId);
      EmptyTermKeepsAll(orders[1..]);
      assert [orders[0]] + orders[1..] == orders;
    }
  }

  /** The search looks at each order on its own: a single order is kept
      exactly when it matches. */
  lemma SearchOne(o: ListedOrder, searchTerm: string)
    ensures SearchOrders([o], searchTerm) == if MatchesSearch(o.customerName, o.orderId, searchTerm) then [o] else []
  {
    assert [o][1..] == [];
  }

  /** Searching a concatenation is the concatenation of the searches, so the
      kept orders keep their original order and none is repeated. */
  lemma {:induction false} SearchAppend(a: seq<ListedOrder>, b: seq<ListedOrder>, searchTerm: string)
    ensures SearchOrders(a + b, searchTerm) == SearchOrders(a, searchTerm) + SearchOrders(b, searchTerm)
  {
    if a != [] {
      assert (a + b)[1..] == a[1..] + b;
      SearchAppend(a[1..], b, searchTerm);
    } else {
      assert a + b == b;
    }
  }

  /** Whole days in a span of milliseconds, truncated toward zero. */
  function WholeDays(span: int): (q: int)
    ensures span >= 0 ==> 0 <= q * MS_PER_DAY <= span < (q + 1) * MS_PER_DAY
    ensures span < 0 ==> (q - 1) * MS_PER_DAY < span <= q * MS_PER_DAY <= 0
  {
    if span >= 0 then span / MS_PER_DAY else -((-span) / MS_PER_DAY)
  }

  /** `differenceInDays(new Date(order.endDate), new Date())`: the whole days
      from now to the end date, truncated toward zero; `None` (not a number)
      when the order has no end date. The admin dashboard only lists orders
      whose end date is not yet past, so the `None` case is not reached from
      there, and the page's `format` of the end date would throw on it. */
  function DaysLeft(endDate: Option<int>, now: int): (d: Option<int>)
    ensures d.Some? <==> endDate.Some?
    ensures d.Some? ==> d.value == WholeDays(endDate.value - now)
  {
    if endDate.Some? then Some(WholeDays(endDate.value - now)) else None
  }

  /** `daysLeft <= 3`; a comparison with not-a-number is false. */
  predicate IsExpiringSoon(daysLeft: Option<int>)
  {
    daysLeft.Some? && daysLeft.value <= 3
  }

  /** An order is flagged exactly when its end date is less than four whole
      days away (or already past). */
  lemma ExpiringSoonWithinFourDays(endDate: int, now: int)
    ensures IsExpiringSoon(DaysLeft(Some(endDate), now)) <==> endDate - now < 4 * MS_PER_DAY
  {
  }

  /** An order without an end date is never flagged. */
  lemma NoEndDateNotFlagged(now: int)
    ensures !IsExpiringSoon(DaysLeft(None, now))
  {
  }

  const LAST_DAY: string := "Last Day!"
  const DAYS_LEFT_SUFFIX: string := " Days Left"

  /** The badge: "N Days Left" for a positive number of days, "Last Day!"
      otherwise (including not-a-number). */
  function Badge(daysLeft: Option<int>): (text: string)
    ensures daysLeft.Some? && daysLeft.value > 0 ==>
              text == Decimal(daysLeft.value) + DAYS_LEFT_SUFFIX
    ensures !(daysLeft.Some? && daysLeft.value > 0) ==> text == LAST_DAY
  {
    if daysLeft.Some? && daysLeft.value > 0 then Decimal(daysLeft.value) + DAYS_LEFT_SUFFIX else LAST_DAY
  }

  /** The badge reads "Last Day!" exactly when less than one whole day is left
      (or there is no end date); otherwise the number it shows reads back as
      the days left. */
  lemma BadgeShowsDaysLeft(endDate: Option<int>, now: int)
    ensures var text := Badge(DaysLeft(endDate, now));
            && (text == LAST_DAY <==> endDate.None? || endDate.value - now < MS_PER_DAY)
            && (text != LAST_DAY ==>
                  && |text| > |DAYS_LEFT_SUFFIX|
                  && AllDigits(text[..|text| - |DAYS_LEFT_SUFFIX|])
                  && ParseDecimal(text[..|text| - |DAYS_LEFT_SUFFIX|]) == DaysLeft(endDate, now).value)
  {
    var d := DaysLeft(endDate, now);
    var text := Badge(d);
    if d.Some? && d.value > 0 {
      var digits := Decimal(d.value);
      assert text[..|text| - |DAYS_LEFT_SUFFIX|] == digits;
      assert text != LAST_DAY by {
        assert text[|text| - 1] == 't' && LAST_DAY[|LAST_DAY| - 1] == '!';
      }
      DecimalRoundTrip(d.value);
    }
  }

  /** `order.orderId.slice(-6)`: the last six characters, or the whole id when
      shorter. */
  function ShortId(orderId: string): (r: string)
    ensures |r| == if |orderId| < 6 then |orderId| else 6
    ensures orderId == orderId[..|orderId| - |r|] + r
  {
    LastChars(orderId, 6)
  }

  /** For an orderId the create route issued at an instant of six or more
      digits, the short id is the last six digits of that instant. */
  lemma ShortIdOfIssuedOrder(now: nat)
    requires now >= 100000
    ensures ShortId(OrderIdAt(now)) == LastChars(Decimal(now), 6)
  {
    var digits := Decimal(now);
    DecimalLength(now, 5);
    var id := OrderIdAt(now);
    assert id[|id| - 6..] == digits[|digits| - 6..];
  }
}
