/** The page arithmetic the listing routes share: `offset = (page - 1) * limit`,
    `totalPages = Math.ceil(count / limit)`, `hasNextPage = offset + rows < count`. */
module Pagination {
  import opened Common

  datatype Page<T> = Page(
    rows: seq<T>,
    currentPage: int,
    totalPages: Option<int>,
    total: nat,
    hasNextPage: bool,
    hasPrevPage: bool)

  function Min(a: int, b: int): int {
    if a <= b then a else b
  }

  /** `Math.ceil(n / d)` for a positive `d`: the fewest pages of `d` rows that hold `n` rows. */
  function CeilDiv(n: nat, d: int): (t: int)
    requires d > 0
    ensures (t - 1) * d < n <= t * d
  {
    var t := (n + d - 1) / d;
    assert n + d - 1 == d * t + (n + d - 1) % d;
    assert t * d == d * t && (t - 1) * d == d * t - d;
    t
  }

  /** One page of `all` and the pagination block of the response. The database
      rejects a negative offset or limit, which the routes answer with 500. A
      page below 1 with a limit of 0 gives the offset `-0`, which `parseInt`
      turns into 0, so it is no error. A limit of 0 makes `Math.ceil(count / 0)`
      non-finite, sent as JSON `null`. */
  function Paginate<T>(all: seq<T>, page: int, limit: int): (r: Result<Page<T>>)
    ensures r.Err? <==> limit < 0 || (page - 1) * limit < 0
    ensures r.Err? ==> r.code == ServerError
    ensures r.Ok? ==>
      var offset, p := (page - 1) * limit, r.value;
      && offset >= 0
      && |p.rows| <= limit
      && (offset + limit <= |all| ==> |p.rows| == limit)
      && (offset < |all| ==> offset + |p.rows| == Min(offset + limit, |all|))
      && (offset >= |all| ==> p.rows == [])
      && (forall k :: 0 <= k < |p.rows| ==> offset + k < |all| && p.rows[k] == all[offset + k])
      && p.total == |all|
      && (p.hasNextPage <==> offset + limit < |all|)
      && p.hasPrevPage == (page > 1)
      && p.currentPage == page
      && (limit == 0 <==> p.totalPages.None?)
      && (limit > 0 ==> (p.totalPages.value - 1) * limit < |all| <= p.totalPages.value * limit)
  {
    if limit < 0 || (page - 1) * limit < 0 then Err(ServerError)
    else
      var offset := (page - 1) * limit;
      var lo, hi := Min(offset, |all|), Min(offset + limit, |all|);
      var rows := all[lo..hi];
      Ok(Page(rows, page, if limit == 0 then None else Some(CeilDiv(|all|, limit)),
              |all|, offset + |rows| < |all|, page > 1))
  }

  lemma MulNonNegative(a: int, b: int)
    requires a >= 0 && b >= 0
    ensures a * b >= 0
  {
  }

  /** A limit of 0 never fails, whatever the page: the answer has no rows and
      no page count, and it reports a next page whenever there are rows. */
  lemma ZeroLimitAnswers<T>(all: seq<T>, page: int)
    ensures Paginate(all, page, 0).Ok?
    ensures Paginate(all, page, 0).value.rows == [] && Paginate(all, page, 0).value.totalPages.None?
    ensures Paginate(all, page, 0).value.hasNextPage <==> all != []
  {
  }

  /** A positive limit fails exactly below page 1. */
  lemma PositiveLimitNeedsPage<T>(all: seq<T>, page: int, limit: int)
    requires limit > 0
    ensures Paginate(all, page, limit).Err? <==> page < 1
  {
    if page >= 1 {
      MulNonNegative(page - 1, limit);
    } else {
      assert (page - 1) * limit <= -limit by {
        MulMonotoneLeft(page - 1, -1, limit);
      }
    }
  }

  lemma MulMonotoneLeft(a: int, b: int, c: int)
    requires a <= b && c > 0
    ensures a * c <= b * c
  {
  }

  /** `hasNextPage` is true exactly when the following page has rows. */
  lemma NextPageHasRows<T>(all: seq<T>, page: int, limit: int)
    requires page >= 1 && limit >= 1
    ensures Paginate(all, page, limit).Ok? && Paginate(all, page + 1, limit).Ok?
    ensures Paginate(all, page, limit).value.hasNextPage
        <==> Paginate(all, page + 1, limit).value.rows != []
  {
    assert (page + 1 - 1) * limit == (page - 1) * limit + limit;
  }

  /** Consecutive pages continue one another: a page with a successor is
      full, and the successor's rows come right after it. */
  lemma PagesAreConsecutive<T>(all: seq<T>, page: int, limit: int, k: int)
    requires page >= 1 && limit >= 1
    requires 0 <= k < |Paginate(all, page + 1, limit).value.rows|
    ensures |Paginate(all, page, limit).value.rows| == limit
    ensures Paginate(all, page + 1, limit).value.rows[k] == all[page * limit + k]
  {
    var offset := (page - 1) * limit;
    assert page * limit == offset + limit;
    var next := Paginate(all, page + 1, limit).value;
    assert (page + 1 - 1) * limit == page * limit;
    assert next.rows[k] == all[page * limit + k];
    assert offset + limit <= |all|;
  }

  /** A page is a contiguous slice of the rows it pages through. */
  lemma PageIsSlice<T>(all: seq<T>, page: int, limit: int) returns (lo: int, hi: int)
    requires Paginate(all, page, limit).Ok?
    ensures 0 <= lo <= hi <= |all|
    ensures Paginate(all, page, limit).value.rows == all[lo..hi]
  {
    var rows := Paginate(all, page, limit).value.rows;
    var offset := (page - 1) * limit;
    if offset >= |all| {
      lo, hi := |all|, |all|;
    } else {
      lo, hi := offset, offset + |rows|;
      assert rows == all[lo..hi];
    }
  }
}
