/** GET /api/orders/list (src/app/api/orders/list/route.ts): every order,
    newest first, one page at a time, behind a per-address rate limit. The
    requested limit is capped at 100. */
module ListRoute {
  import opened Common
  import opened OrderModel
  import opened Pagination

  const LIST_MAX_REQUESTS: int := 30
  const LIST_WINDOW_MS: int := 60000
  const DEFAULT_LIST_LIMIT: int := 10
  const MAX_LIST_LIMIT: int := 100

  /** `Math.min(parseInt(param || "10"), 100)`; `None` stands for an absent or
      empty parameter. */
  function ListLimit(limitParam: Option<int>): (limit: int)
    ensures limit <= MAX_LIST_LIMIT
    ensures limitParam.None? ==> limit == DEFAULT_LIST_LIMIT
    ensures limitParam.Some? ==> limit == if limitParam.value < MAX_LIST_LIMIT then limitParam.value else MAX_LIST_LIMIT
  {
    var requested := if limitParam.Some? then limitParam.value else DEFAULT_LIST_LIMIT;
    if requested < MAX_LIST_LIMIT then requested else MAX_LIST_LIMIT
  }

  function ListPageNumber(pageParam: Option<int>): int
  {
    if pageParam.Some? then pageParam.value else 1
  }

  datatype ListOutcome =
    | ListRateLimited
    | ListFailed
    | ListPage(count: nat, totalOrders: nat, totalPages: Option<int>, currentPage: int, orders: seq<Order>)

  function ListStatus(r: ListOutcome): int
  {
    match r
    case ListRateLimited => 429
    case ListFailed => 500
    case ListPage(_, _, _, _, _) => 200
  }

  /** The handler, given every stored order newest first and whether the rate
      limiter admitted the call. The page is the rows the cursor returns for
      `skip((page - 1) * limit).limit(limit)`; a negative skip is a database
      error. */
  function ListOrders(rows: seq<Order>, allowed: bool, pageParam: Option<int>, limitParam: Option<int>)
    : (r: ListOutcome)
    ensures r.ListPage? <==> allowed && Skip(ListPageNumber(pageParam), ListLimit(limitParam)) >= 0
    ensures r.ListPage? ==>
              && r.count == |r.orders|
              && r.totalOrders == |rows|
              && r.currentPage == ListPageNumber(pageParam)
              && r.totalPages == TotalPages(|rows|, ListLimit(limitParam))
              && Some(r.orders) == PageSlice(rows, Skip(r.currentPage, ListLimit(limitParam)), ListLimit(limitParam))
  {
    if !allowed then ListRateLimited
    else
      var page := ListPageNumber(pageParam);
      var limit := ListLimit(limitParam);
      var slice := PageSlice(rows, Skip(page, limit), limit);
      if slice.None? then ListFailed
      else ListPage(|slice.value|, |rows|, TotalPages(|rows|, limit), page, slice.value)
  }

  /** With a positive limit, a page holds at most that many orders, hence at
      most 100, and the pages numbered up to `totalPages` are the non-empty ones. */
  lemma PositiveLimitPageBounded(rows: seq<Order>, pageParam: Option<int>, limitParam: Option<int>)
    requires ListLimit(limitParam) > 0 && ListPageNumber(pageParam) >= 1
    ensures var r := ListOrders(rows, true, pageParam, limitParam);
            && r.ListPage?
            && r.count <= ListLimit(limitParam) <= MAX_LIST_LIMIT
            && (r.count > 0 <==> r.currentPage <= r.totalPages.value)
  {
    PagesWithinTotalAreNonEmpty(rows, ListPageNumber(pageParam), ListLimit(limitParam));
  }

  /** As written, `?limit=0` passes the cap (0 is below 100) and the database
      reads a zero limit as no limit, so the first page returns every order. */
  lemma ZeroLimitListsEverything(rows: seq<Order>)
    ensures ListOrders(rows, true, None, Some(0)) == ListPage(|rows|, |rows|, None, 1, rows)
  {
  }

  /** The cap as evidently intended: the requested limit clamped to 1..100. */
  function CappedListLimit(limitParam: Option<int>): (limit: int)
    ensures 1 <= limit <= MAX_LIST_LIMIT
    ensures limitParam.None? ==> limit == DEFAULT_LIST_LIMIT
    ensures limitParam.Some? && 1 <= limitParam.value <= MAX_LIST_LIMIT ==> limit == limitParam.value
  {
    var requested := if limitParam.Some? then limitParam.value else DEFAULT_LIST_LIMIT;
    if requested < 1 then 1 else if requested > MAX_LIST_LIMIT then MAX_LIST_LIMIT else requested
  }

  /** The listing with the clamped limit: every page it returns holds at most
      100 orders, whatever the query parameters. */
  function CappedListOrders(rows: seq<Order>, allowed: bool, pageParam: Option<int>, limitParam: Option<int>)
    : (r: ListOutcome)
    ensures r.ListPage? ==> r.count == |r.orders| <= MAX_LIST_LIMIT && r.totalOrders == |rows|
    ensures r.ListPage? ==> r.totalPages == TotalPages(|rows|, CappedListLimit(limitParam))
    ensures r.ListPage? <==> allowed && ListPageNumber(pageParam) >= 1
  {
    if !allowed then ListRateLimited
    else
      var page := ListPageNumber(pageParam);
      var limit := CappedListLimit(limitParam);
      var slice := PageSlice(rows, Skip(page, limit), limit);
      if slice.None? then ListFailed
      else ListPage(|slice.value|, |rows|, TotalPages(|rows|, limit), page, slice.value)
  }
}
