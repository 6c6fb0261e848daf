/** The pagination arithmetic of the listing routes: `skip = (page - 1) * limit`,
    `totalPages = Math.ceil(total / limit)`, and the database's `skip`/`limit`
    cursor modifiers applied to an already sorted result. */
module Pagination {
  import opened Common

  /** `Math.ceil(a / b)` for a non-zero divisor of either sign. */
  function CeilDiv(a: int, b: int): (q: int)
    requires b != 0
    ensures b > 0 ==> (q - 1) * b < a <= q * b
    ensures b < 0 ==> q * b <= a < (q - 1) * b
  {
    if b > 0 then -((-a) / b) else -(a / (-b))
  }

  /** The rows a cursor skips before the requested page. */
  function Skip(page: int, limit: int): int
  {
    (page - 1) * limit
  }

  /** `Math.ceil(total / limit)` as it appears in the JSON reply: a division by
      zero gives Infinity or NaN, both of which serialise as null. */
  function TotalPages(total: nat, limit: int): (r: Option<int>)
    ensures r.None? <==> limit == 0
    ensures limit > 0 ==> r.Some? && (r.value - 1) * limit < total <= r.value * limit
    ensures limit > 0 ==> r.Some? && r.value >= 0
  {
    if limit == 0 then None else Some(CeilDiv(total, limit))
  }

  function Abs(n: int): nat
  {
    if n < 0 then -n else n
  }

  /** A cursor with `skip(skip).limit(limit)` over the sorted rows `s`: a
      negative skip is refused by the database, a zero limit means no limit and
      a negative limit is taken by its absolute value. */
  function PageSlice<T>(s: seq<T>, skip: int, limit: int): (r: Option<seq<T>>)
    ensures r.Some? <==> skip >= 0
    ensures r.Some? ==> |r.value| == if skip >= |s| then 0
                                     else if limit == 0 || Abs(limit) >= |s| - skip then |s| - skip
                                     else Abs(limit)
    ensures r.Some? ==> forall i | 0 <= i < |r.value| :: r.value[i] == s[skip + i]
  {
    if skip < 0 then None
    else
      var rest := if skip >= |s| then [] else s[skip..];
      var n := Abs(limit);
      Some(if n == 0 || n >= |rest| then rest else rest[..n])
  }

  /** With a positive limit, the pages numbered 1 to `totalPages` are exactly the
      non-empty ones: each holds at least one row, and every later page is empty. */
  lemma PagesWithinTotalAreNonEmpty<T>(s: seq<T>, page: int, limit: int)
    requires limit > 0 && page >= 1
    ensures PageSlice(s, Skip(page, limit), limit).Some?
    ensures PageSlice(s, Skip(page, limit), limit).value != [] <==> page <= TotalPages(|s|, limit).value
  {
    var pages := TotalPages(|s|, limit).value;
    var skip := Skip(page, limit);
    assert skip >= 0 by {
      assert page - 1 >= 0;
    }
    if page <= pages {
      assert (page - 1) * limit <= (pages - 1) * limit;
    } else {
      assert (page - 1) * limit >= pages * limit;
    }
  }
}
