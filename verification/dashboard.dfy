/** The administrator dashboard's computations over the fetched orders
    (src/app/components/admin/dashboard/page.tsx): the analytics record built by
    `calculateAnalytics`, the search and package filter, and the sorted list of
    distinct packages. Amounts are whole rupees; instants are milliseconds and
    `today` is the start of the current day. */
module Dashboard {
  import opened Common
  import opened Strings

  /** The fields of a fetched order the dashboard reads. A missing package or
      amount is `None`. */
  datatype DashOrder = DashOrder(
    orderId: string,
    customerName: string,
    package: Option<string>,
    totalAmount: Option<int>,
    createdAt: int)

  /** `order.totalAmount || 0`. */
  function Amount(o: DashOrder): int
  {
    if o.totalAmount.Some? then o.totalAmount.value else 0
  }

  /** `order.package || "Unknown"`. */
  function PackageKey(o: DashOrder): string
  {
    if o.package.Some? && o.package.value != "" then o.package.value else "Unknown"
  }

  /** Sum of the amounts. */
  function Revenue(s: seq<DashOrder>): int
  {
    if s == [] then 0 else Revenue(s[..|s| - 1]) + Amount(s[|s| - 1])
  }

  /** Sum of the amounts of orders created at or after `t`. */
  function RevenueSince(s: seq<DashOrder>, t: int): int
  {
    if s == [] then 0
    else RevenueSince(s[..|s| - 1], t) + (if s[|s| - 1].createdAt >= t then Amount(s[|s| - 1]) else 0)
  }

  /** Number of orders created at or after `t`. */
  function CountSince(s: seq<DashOrder>, t: int): nat
  {
    if s == [] then 0
    else CountSince(s[..|s| - 1], t) + (if s[|s| - 1].createdAt >= t then 1 else 0)
  }

  /** Number and revenue of orders created in `[lo, hi)`. */
  function CountIn(s: seq<DashOrder>, lo: int, hi: int): nat
  {
    if s == [] then 0
    else CountIn(s[..|s| - 1], lo, hi) + (if lo <= s[|s| - 1].createdAt < hi then 1 else 0)
  }

  function RevenueIn(s: seq<DashOrder>, lo: int, hi: int): int
  {
    if s == [] then 0
    else RevenueIn(s[..|s| - 1], lo, hi) + (if lo <= s[|s| - 1].createdAt < hi then Amount(s[|s| - 1]) else 0)
  }

  /** A later threshold counts no more orders, and no threshold counts more
      orders than there are. */
  lemma {:induction false} CountSinceMonotone(s: seq<DashOrder>, t1: int, t2: int)
    requires t1 <= t2
    ensures CountSince(s, t2) <= CountSince(s, t1) <= |s|
  {
    if s != [] {
      CountSinceMonotone(s[..|s| - 1], t1, t2);
    }
  }

  /** Two adjacent ranges count as their union. */
  lemma {:induction false} CountInSplit(s: seq<DashOrder>, a: int, b: int, c: int)
    requires a <= b <= c
    ensures CountIn(s, a, b) + CountIn(s, b, c) == CountIn(s, a, c)
    ensures RevenueIn(s, a, b) + RevenueIn(s, b, c) == RevenueIn(s, a, c)
  {
    if s != [] {
      CountInSplit(s[..|s| - 1], a, b, c);
    }
  }

  /** One row of `revenueByPackage`. */
  datatype PackageRevenue = PackageRevenue(package: string, revenue: int, count: nat)

  /** The position of `key` among the entries, or `|entries|` when absent. */
  function IndexOf(entries: seq<PackageRevenue>, key: string): (i: nat)
    ensures i <= |entries|
    ensures i < |entries| ==> entries[i].package == key
    ensures i == |entries| ==> forall j | 0 <= j < |entries| :: entries[j].package != key
  {
    if entries == [] then 0
    else if entries[0].package == key then 0
    else 1 + IndexOf(entries[1..], key)
  }

  /** `revenueMap.set(pkg, { revenue: current.revenue + amount, count: current.count + 1 })`
      on the map's entries in insertion order: an existing key keeps its place. */
  function Bump(entries: seq<PackageRevenue>, key: string, amount: int): seq<PackageRevenue>
  {
    var i := IndexOf(entries, key);
    if i == |entries| then entries + [PackageRevenue(key, amount, 1)]
    else entries[i := PackageRevenue(key, entries[i].revenue + amount, entries[i].count + 1)]
  }

  /** `revenueMap` after the orders, in order. */
  function Grouped(s: seq<DashOrder>): seq<PackageRevenue>
  {
    if s == [] then [] else Bump(Grouped(s[..|s| - 1]), PackageKey(s[|s| - 1]), Amount(s[|s| - 1]))
  }

  function SumCounts(e: seq<PackageRevenue>): int
  {
    if e == [] then 0 else e[0].count + SumCounts(e[1..])
  }

  function SumRevenues(e: seq<PackageRevenue>): int
  {
    if e == [] then 0 else e[0].revenue + SumRevenues(e[1..])
  }

  lemma {:induction false} SumsOfUpdate(e: seq<PackageRevenue>, i: nat, x: PackageRevenue)
    requires i < |e|
    ensures SumCounts(e[i := x]) == SumCounts(e) - e[i].count + x.count
    ensures SumRevenues(e[i := x]) == SumRevenues(e) - e[i].revenue + x.revenue
  {
    if i > 0 {
      assert e[i := x][1..] == e[1..][i - 1 := x];
      SumsOfUpdate(e[1..], i - 1, x);
    }
  }

  lemma {:induction false} SumsOfAppend(e: seq<PackageRevenue>, x: PackageRevenue)
    ensures SumCounts(e + [x]) == SumCounts(e) + x.count
    ensures SumRevenues(e + [x]) == SumRevenues(e) + x.revenue
  {
    if e != [] {
      assert (e + [x])[1..] == e[1..] + [x];
      SumsOfAppend(e[1..], x);
    }
  }

  /** The per-package counts add up to the number of orders and the
      per-package revenues to the total revenue. */
  lemma {:induction false} GroupedSums(s: seq<DashOrder>)
    ensures SumCounts(Grouped(s)) == |s|
    ensures SumRevenues(Grouped(s)) == Revenue(s)
  {
    if s != [] {
      var e := Grouped(s[..|s| - 1]);
      GroupedSums(s[..|s| - 1]);
      var key := PackageKey(s[|s| - 1]);
      var i := IndexOf(e, key);
      if i == |e| {
        SumsOfAppend(e, PackageRevenue(key, Amount(s[|s| - 1]), 1));
      } else {
        SumsOfUpdate(e, i, PackageRevenue(key, e[i].revenue + Amount(s[|s| - 1]), e[i].count + 1));
      }
    }
  }

  predicate DistinctPackages(e: seq<PackageRevenue>)
  {
    forall i, j | 0 <= i < j < |e| :: e[i].package != e[j].package
  }

  /** Number and revenue of the orders grouped under `key`. */
  function CountOfKey(s: seq<DashOrder>, key: string): nat
  {
    if s == [] then 0 else CountOfKey(s[..|s| - 1], key) + (if PackageKey(s[|s| - 1]) == key then 1 else 0)
  }

  function RevenueOfKey(s: seq<DashOrder>, key: string): int
  {
    if s == [] then 0
    else RevenueOfKey(s[..|s| - 1], key) + (if PackageKey(s[|s| - 1]) == key then Amount(s[|s| - 1]) else 0)
  }

  /** Each package appears once, with the number and revenue of exactly its
      orders, and every order's package (or "Unknown") appears. */
  lemma {:induction false} GroupedByPackage(s: seq<DashOrder>)
    ensures DistinctPackages(Grouped(s))
    ensures forall i | 0 <= i < |Grouped(s)| ::
              Grouped(s)[i].count == CountOfKey(s, Grouped(s)[i].package)
              && Grouped(s)[i].revenue == RevenueOfKey(s, Grouped(s)[i].package)
    ensures forall k | 0 <= k < |s| :: IndexOf(Grouped(s), PackageKey(s[k])) < |Grouped(s)|
  {
    if s != [] {
      var p := s[..|s| - 1];
      var last := s[|s| - 1];
      GroupedByPackage(p);
      var e := Grouped(p);
      var g := Grouped(s);
      var key := PackageKey(last);
      var i := IndexOf(e, key);
      assert g == Bump(e, key, Amount(last));
      forall j | 0 <= j < |g|
        ensures g[j].count == CountOfKey(s, g[j].package) && g[j].revenue == RevenueOfKey(s, g[j].package)
      {
        if j < |e| && j != i {
          assert g[j] == e[j];
        } else if j == |e| {
          forall k | 0 <= k < |p| ensures PackageKey(p[k]) != key {
            assert e[IndexOf(e, PackageKey(p[k]))].package == PackageKey(p[k]);
          }
          AbsentKeyCountsNothing(p, key);
        }
      }
      forall k | 0 <= k < |s|
        ensures IndexOf(g, PackageKey(s[k])) < |g|
      {
        if k < |s| - 1 {
          assert s[k] == p[k];
          var j := IndexOf(e, PackageKey(p[k]));
          assert g[j].package == e[j].package;
        } else {
          assert g[i].package == key;
        }
      }
    }
  }

  lemma {:induction false} AbsentKeyCountsNothing(s: seq<DashOrder>, key: string)
    requires forall k | 0 <= k < |s| :: PackageKey(s[k]) != key
    ensures CountOfKey(s, key) == 0 && RevenueOfKey(s, key) == 0
  {
    if s != [] {
      AbsentKeyCountsNothing(s[..|s| - 1], key);
    }
  }

  /** `revenueByPackage`'s order: by revenue, highest first. */
  predicate ByRevenueDescending(e: seq<PackageRevenue>)
  {
    forall i, j | 0 <= i < j < |e| :: e[i].revenue >= e[j].revenue
  }

  /** Insert after every entry with at least the same revenue, as a stable
      sort places a later element. */
  function InsertByRevenue(sorted: seq<PackageRevenue>, x: PackageRevenue): (r: seq<PackageRevenue>)
    requires ByRevenueDescending(sorted)
    ensures ByRevenueDescending(r)
    ensures multiset(r) == multiset(sorted) + multiset{x}
    ensures r[0] == x || r[0] == sorted[0]
  {
    if sorted == [] || sorted[0].revenue < x.revenue then
      assert forall j | 0 <= j < |sorted| :: sorted[j].revenue <= sorted[0].revenue;
      [x] + sorted
    else
      var rest := InsertByRevenue(sorted[1..], x);
      assert rest[0].revenue <= sorted[0].revenue;
      assert forall j | 0 <= j < |rest| :: rest[j].revenue <= rest[0].revenue;
      assert sorted == [sorted[0]] + sorted[1..];
      [sorted[0]] + rest
  }

  /** `.sort((a, b) => b.revenue - a.revenue)`, a stable sort. */
  function SortByRevenue(e: seq<PackageRevenue>): (r: seq<PackageRevenue>)
    ensures ByRevenueDescending(r)
    ensures multiset(r) == multiset(e)
  {
    if e == [] then []
    else
      assert e == e[..|e| - 1] + [e[|e| - 1]];
      InsertByRevenue(SortByRevenue(e[..|e| - 1]), e[|e| - 1])
  }

  /** One bucket of `dailyGrowth`: the day starting at `start`. */
  datatype DayBucket = DayBucket(start: int, orders: nat, revenue: int)

  function Bucket(s: seq<DashOrder>, start: int): DayBucket
  {
    DayBucket(start, CountIn(s, start, start + MS_PER_DAY), RevenueIn(s, start, start + MS_PER_DAY))
  }

  datatype Analytics = Analytics(
    ordersToday: nat,
    ordersThisWeek: nat,
    revenueByPackage: seq<PackageRevenue>,
    dailyGrowth: seq<DayBucket>,
    totalRevenue: int,
    totalRevenueToday: int,
    totalRevenueThisWeek: int)

  /** The position of `key` in the entries, found by a scan (`revenueMap.get`). */
  method FindPackage(entries: seq<PackageRevenue>, key: string) returns (i: nat)
    ensures i == IndexOf(entries, key)
  {
    i := 0;
    while i < |entries| && entries[i].package != key
      invariant i <= |entries|
      invariant IndexOf(entries, key) == i + IndexOf(entries[i..], key)
    {
      assert entries[i..][1..] == entries[i + 1..];
      i := i + 1;
    }
    if i < |entries| {
      assert entries[i..][0] == entries[i];
    }
  }

  /** One step of the `forEach`'s map update. */
  method BumpEntries(entries: seq<PackageRevenue>, key: string, amount: int) returns (r: seq<PackageRevenue>)
    ensures r == Bump(entries, key, amount)
  {
    var i := FindPackage(entries, key);
    if i == |entries| {
      r := entries + [PackageRevenue(key, amount, 1)];
    } else {
      r := entries[i := PackageRevenue(key, entries[i].revenue + amount, entries[i].count + 1)];
    }
  }

  /** The `forEach` over the orders: the revenue totals and the per-package map. */
  method Accumulate(orders: seq<DashOrder>, today: int, weekAgo: int)
    returns (entries: seq<PackageRevenue>, totalRevenue: int, totalRevenueToday: int, totalRevenueThisWeek: int)
    ensures entries == Grouped(orders)
    ensures totalRevenue == Revenue(orders)
    ensures totalRevenueToday == RevenueSince(orders, today)
    ensures totalRevenueThisWeek == RevenueSince(orders, weekAgo)
  {
    entries := [];
    totalRevenue := 0;
    totalRevenueToday := 0;
    totalRevenueThisWeek := 0;
    for n := 0 to |orders|
      invariant entries == Grouped(orders[..n])
      invariant totalRevenue == Revenue(orders[..n])
      invariant totalRevenueToday == RevenueSince(orders[..n], today)
      invariant totalRevenueThisWeek == RevenueSince(orders[..n], weekAgo)
    {
      var order := orders[n];
      assert orders[..n + 1][..n] == orders[..n];
      assert orders[..n + 1][n] == order;
      var amount := Amount(order);
      totalRevenue := totalRevenue + amount;
      if order.createdAt >= today {
        totalRevenueToday := totalRevenueToday + amount;
      }
      if order.createdAt >= weekAgo {
        totalRevenueThisWeek := totalRevenueThisWeek + amount;
      }
      entries := BumpEntries(entries, PackageKey(order), amount);
    }
    assert orders[..|orders|] == orders;
  }

  /** The seven one-day buckets, from six days before today up to today. */
  method DailyGrowth(orders: seq<DashOrder>, today: int) returns (growth: seq<DayBucket>)
    ensures |growth| == 7
    ensures forall j | 0 <= j < 7 :: growth[j] == Bucket(orders, today - (6 - j) * MS_PER_DAY)
  {
    growth := [];
    var i := 6;
    while i >= 0
      invariant -1 <= i <= 6
      invariant |growth| == 6 - i
      invariant forall j | 0 <= j < |growth| :: growth[j] == Bucket(orders, today - (6 - j) * MS_PER_DAY)
    {
      var date := today - i * MS_PER_DAY;
      var nextDate := date + MS_PER_DAY;
      growth := growth + [DayBucket(date, CountIn(orders, date, nextDate), RevenueIn(orders, date, nextDate))];
      i := i - 1;
    }
  }

  /** `calculateAnalytics(orders)` with the day starting at `today`: counts and
      revenue of today and of the last week, the per-package totals sorted by
      revenue, and seven one-day buckets ending today, oldest first. */
  method CalculateAnalytics(orders: seq<DashOrder>, today: int) returns (a: Analytics)
    ensures a.ordersToday == CountSince(orders, today)
    ensures a.ordersThisWeek == CountSince(orders, today - 7 * MS_PER_DAY)
    ensures a.ordersToday <= a.ordersThisWeek <= |orders|
    ensures a.totalRevenue == Revenue(orders)
    ensures a.totalRevenueToday == RevenueSince(orders, today)
    ensures a.totalRevenueThisWeek == RevenueSince(orders, today - 7 * MS_PER_DAY)
    ensures ByRevenueDescending(a.revenueByPackage)
    ensures multiset(a.revenueByPackage) == multiset(Grouped(orders))
    ensures SumCounts(Grouped(orders)) == |orders| && SumRevenues(Grouped(orders)) == a.totalRevenue
    ensures |a.dailyGrowth| == 7
    ensures forall j | 0 <= j < 7 :: a.dailyGrowth[j] == Bucket(orders, today - (6 - j) * MS_PER_DAY)
  {
    var weekAgo := today - 7 * MS_PER_DAY;
    var ordersToday := CountSince(orders, today);
    var ordersThisWeek := CountSince(orders, weekAgo);
    CountSinceMonotone(orders, weekAgo, today);
    var entries, totalRevenue, totalRevenueToday, totalRevenueThisWeek := Accumulate(orders, today, weekAgo);
    GroupedSums(orders);
    var growth := DailyGrowth(orders, today);
    a := Analytics(ordersToday, ordersThisWeek, SortByRevenue(entries), growth,
                   totalRevenue, totalRevenueToday, totalRevenueThisWeek);
  }

  /** Orders in the first `n` buckets. */
  function SumBuckets(s: seq<DashOrder>, today: int, n: nat): nat
  {
    if n == 0 then 0 else SumBuckets(s, today, n - 1) + Bucket(s, today - (6 - (n - 1)) * MS_PER_DAY).orders
  }

  /** The first `n` buckets together cover exactly the orders from six days
      before today to the end of the `n`-th day; all seven reach the end of
      today. */
  lemma {:induction false} GrowthCoversDays(s: seq<DashOrder>, today: int, n: nat)
    ensures SumBuckets(s, today, n) == CountIn(s, today - 6 * MS_PER_DAY, today - (6 - n) * MS_PER_DAY)
  {
    if n > 0 {
      GrowthCoversDays(s, today, n - 1);
      var start := today - (6 - (n - 1)) * MS_PER_DAY;
      assert start + MS_PER_DAY == today - (6 - n) * MS_PER_DAY;
      CountInSplit(s, today - 6 * MS_PER_DAY, start, start + MS_PER_DAY);
    } else {
      assert CountIn(s, today - 6 * MS_PER_DAY, today - 6 * MS_PER_DAY) == 0 by {
        EmptyRange(s, today - 6 * MS_PER_DAY);
      }
    }
  }

  lemma {:induction false} EmptyRange(s: seq<DashOrder>, t: int)
    ensures CountIn(s, t, t) == 0
  {
    if s != [] {
      EmptyRange(s[..|s| - 1], t);
    }
  }

  /** The search box: the customer's name or the orderId contains the term,
      ignoring ASCII case. */
  predicate MatchesSearch(customerName: string, orderId: string, searchTerm: string)
  {
    Includes(ToLower(customerName), ToLower(searchTerm)) || Includes(ToLower(orderId), ToLower(searchTerm))
  }

  /** An empty search term matches every order. */
  lemma EmptyTermMatches(customerName: string, orderId: string)
    ensures MatchesSearch(customerName, orderId, "")
  {
    IncludesEmpty(ToLower(customerName));
  }

  /** The order table's filter: the search matches, and the package filter is
      empty or equal to the order's package. */
  predicate Shown(o: DashOrder, searchTerm: string, packageFilter: string)
  {
    MatchesSearch(o.customerName, o.orderId, searchTerm)
    && (packageFilter == "" || o.package == Some(packageFilter))
  }

  /** `filteredOrders`: the shown orders, in their original order. */
  function FilteredOrders(orders: seq<DashOrder>, searchTerm: string, packageFilter: string): (r: seq<DashOrder>)
    ensures |r| <= |orders|
    ensures forall o | o in r :: o in orders && Shown(o, searchTerm, packageFilter)
    ensures forall o | o in orders && Shown(o, searchTerm, packageFilter) :: o in r
  {
    if orders == [] then []
    else
      var rest := FilteredOrders(orders[1..], searchTerm, packageFilter);
      if Shown(orders[0], searchTerm, packageFilter) then [orders[0]] + rest else rest
  }

  /** The filter looks at each order on its own: a single order is kept
      exactly when it is shown. */
  lemma FilterOne(o: DashOrder, searchTerm: string, packageFilter: string)
    ensures FilteredOrders([o], searchTerm, packageFilter) == if Shown(o, searchTerm, packageFilter) then [o] else []
  {
    assert [o][1..] == [];
  }

  /** Filtering a concatenation is the concatenation of the filtered parts, so
      the shown orders keep their original order and none is repeated. */
  lemma {:induction false} FilterAppend(a: seq<DashOrder>, b: seq<DashOrder>, searchTerm: string, packageFilter: string)
    ensures FilteredOrders(a + b, searchTerm, packageFilter)
            == FilteredOrders(a, searchTerm, packageFilter) + FilteredOrders(b, searchTerm, packageFilter)
  {
    if a != [] {
      assert (a + b)[1..] == a[1..] + b;
      FilterAppend(a[1..], b, searchTerm, packageFilter);
    } else {
      assert a + b == b;
    }
  }

  /** With no search term and no package filter every order is shown, in order. */
  lemma {:induction false} EmptySearchShowsAll(orders: seq<DashOrder>)
    ensures FilteredOrders(orders, "", "") == orders
  {
    if orders != [] {
      EmptyTermMatches(orders[0].customerName, orders[0].orderId);
      EmptySearchShowsAll(orders[1..]);
      assert [orders[0]] + orders[1..] == orders;
    }
  }

  /** JavaScript's default comparison of strings, character by character, a
      proper prefix first. Characters here are Unicode scalar values, whereas
      JavaScript compares UTF-16 code units; the two agree on the Basic
      Multilingual Plane below the surrogate range. */
  predicate StrLess(a: string, b: string)
  {
    b != [] && (a == [] || a[0] < b[0] || (a[0] == b[0] && StrLess(a[1..], b[1..])))
  }

  lemma {:induction false} StrLessIrreflexive(a: string)
    ensures !StrLess(a, a)
  {
    if a != [] {
      StrLessIrreflexive(a[1..]);
    }
  }

  lemma {:induction false} StrLessTransitive(a: string, b: string, c: string)
    requires StrLess(a, b) && StrLess(b, c)
    ensures StrLess(a, c)
  {
    if a != [] && a[0] == b[0] && b[0] == c[0] {
      StrLessTransitive(a[1..], b[1..], c[1..]);
    }
  }

  lemma {:induction false} StrLessTotal(a: string, b: string)
    requires a != b
    ensures StrLess(a, b) || StrLess(b, a)
  {
    if a != [] && b != [] && a[0] == b[0] {
      assert a == [a[0]] + a[1..] && b == [b[0]] + b[1..];
      StrLessTotal(a[1..], b[1..]);
    }
  }

  /** The default sort's order on packages: strings by `StrLess`, a missing
      package after every string. */
  predicate Before(a: Option<string>, b: Option<string>)
  {
    a.Some? && (b.None? || StrLess(a.value, b.value))
  }

  lemma BeforeTotalOrder(a: Option<string>, b: Option<string>, c: Option<string>)
    ensures !Before(a, a)
    ensures Before(a, b) && Before(b, c) ==> Before(a, c)
    ensures a != b ==> Before(a, b) || Before(b, a)
  {
    if a.Some? {
      StrLessIrreflexive(a.value);
    }
    if Before(a, b) && Before(b, c) && c.Some? {
      StrLessTransitive(a.value, b.value, c.value);
    }
    if a != b && a.Some? && b.Some? {
      StrLessTotal(a.value, b.value);
    }
  }

  predicate StrictlyAscending(s: seq<Option<string>>)
  {
    forall i, j | 0 <= i < j < |s| :: Before(s[i], s[j])
  }

  /** Add a package to a sorted list of distinct packages. */
  function InsertUnique(s: seq<Option<string>>, x: Option<string>): (r: seq<Option<string>>)
    requires StrictlyAscending(s)
    ensures StrictlyAscending(r)
    ensures forall y :: y in r <==> y in s || y == x
  {
    if s == [] then [x]
    else if s[0] == x then s
    else if Before(x, s[0]) then
      assert forall j | 0 <= j < |s| :: Before(x, s[j]) by {
        forall j | 0 <= j < |s| ensures Before(x, s[j]) {
          BeforeTotalOrder(x, s[0], s[j]);
        }
      }
      [x] + s
    else
      BeforeTotalOrder(x, s[0], s[0]);
      var rest := InsertUnique(s[1..], x);
      assert forall y | y in rest :: Before(s[0], y) by {
        forall y | y in rest ensures Before(s[0], y) {
          if y != x {
            var j :| 0 <= j < |s[1..]| && s[1..][j] == y;
            assert s[j + 1] == y;
          }
        }
      }
      assert forall y :: y in s <==> y == s[0] || y in s[1..] by {
        assert s == [s[0]] + s[1..];
      }
      [s[0]] + rest
  }

  /** Some order has package `p`. */
  predicate Occurs(orders: seq<DashOrder>, p: Option<string>)
  {
    exists i | 0 <= i < |orders| :: orders[i].package == p
  }

  lemma OccursInPrefix(orders: seq<DashOrder>, p: Option<string>)
    requires orders != []
    ensures Occurs(orders, p) <==> Occurs(orders[..|orders| - 1], p) || p == orders[|orders| - 1].package
  {
    var prefix := orders[..|orders| - 1];
    if Occurs(orders, p) {
      var i :| 0 <= i < |orders| && orders[i].package == p;
      if i < |prefix| {
        assert prefix[i] == orders[i];
      }
    }
    if Occurs(prefix, p) {
      var i :| 0 <= i < |prefix| && prefix[i].package == p;
      assert orders[i] == prefix[i];
    }
  }

  /** `Array.from(new Set(orders.map(o => o.package))).sort()`: every package
      that occurs, once each, in ascending order, a missing package last. */
  function UniquePackages(orders: seq<DashOrder>): (r: seq<Option<string>>)
    ensures StrictlyAscending(r)
    ensures forall p :: p in r <==> Occurs(orders, p)
  {
    if orders == [] then []
    else
      var r := InsertUnique(UniquePackages(orders[..|orders| - 1]), orders[|orders| - 1].package);
      assert forall p :: p in r <==> Occurs(orders, p) by {
        forall p ensures p in r <==> Occurs(orders, p) {
          OccursInPrefix(orders, p);
        }
      }
      r
  }

  /** Distinctness of the package list follows from its strict order. */
  lemma UniquePackagesDistinct(orders: seq<DashOrder>, i: int, j: int)
    requires 0 <= i < j < |UniquePackages(orders)|
    ensures UniquePackages(orders)[i] != UniquePackages(orders)[j]
  {
    BeforeTotalOrder(UniquePackages(orders)[i], UniquePackages(orders)[i], UniquePackages(orders)[i]);
  }
}
