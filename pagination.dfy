/** Pagination shared by every listing operation: a page below 1 becomes 1, a
    limit outside [1, 100] becomes the default 10 (it is reset, not clamped),
    `totalPages` is `(total + limit - 1) / limit` and a page starts at row
    `(page - 1) * limit`. */
module Pagination {
  import opened Records

  const DefaultLimit: int := 10
  const MaxLimit: int := 100

  function NormalizePage(page: int): (p: int)
    ensures p >= 1
    ensures page >= 1 ==> p == page
    ensures page < 1 ==> p == 1
  {
    if page < 1 then 1 else page
  }

  function NormalizeLimit(limit: int): (l: int)
    ensures 1 <= l <= MaxLimit
    ensures 1 <= limit <= MaxLimit ==> l == limit
    ensures !(1 <= limit <= MaxLimit) ==> l == DefaultLimit
  {
    if limit < 1 || limit > MaxLimit then DefaultLimit else limit
  }

  /** The page count as the source computes it. The numerator is never negative
      (a count is a natural number and the limit is at least 1), so Dafny's
      division agrees with the truncating division of the source. */
  function TotalPages(total: nat, limit: int): nat
    requires limit >= 1
  {
    (total + limit - 1) / limit
  }

  /** The first row of a page. */
  function Offset(page: int, limit: int): int {
    (page - 1) * limit
  }

  /** `TotalPages` is the ceiling of total / limit: the fewest pages of `limit`
      rows that hold `total` rows. */
  lemma TotalPagesIsCeiling(total: nat, limit: int)
    requires limit >= 1
    ensures TotalPages(total, limit) * limit >= total
    ensures (TotalPages(total, limit) - 1) * limit < total || total == 0
    ensures TotalPages(total, limit) == 0 <==> total == 0
  {
    var n := total + limit - 1;
    var t := n / limit;
    assert n == t * limit + n % limit;
    assert 0 <= n % limit < limit;
    assert t * limit > total - 1;
    if total > 0 {
      assert (t - 1) * limit == t * limit - limit;
    } else {
      assert n < limit;
    }
  }

  /** Every page up to `TotalPages` starts at a row that exists. */
  lemma OffsetWithinTotal(page: int, limit: int, total: nat)
    requires limit >= 1
    requires 1 <= page <= TotalPages(total, limit)
    ensures 0 <= Offset(page, limit) < total
  {
    TotalPagesIsCeiling(total, limit);
    var t := TotalPages(total, limit);
    assert (page - 1) * limit <= (t - 1) * limit by {
      assert (t - 1) * limit - (page - 1) * limit == (t - page) * limit;
    }
    assert 0 <= (page - 1) * limit;
  }

  /** The page metadata of a listing. */
  function Metadata(page: int, limit: int, total: nat): (m: PaginationMetadata)
    requires limit >= 1
    ensures m.page == page && m.limit == limit && m.total == total
    ensures m.totalPages * limit >= total
    ensures (m.totalPages - 1) * limit < total || total == 0
    ensures m.totalPages == 0 <==> total == 0
  {
    TotalPagesIsCeiling(total, limit);
    PaginationMetadata(page, limit, total, TotalPages(total, limit))
  }

  /** A worked example, not a general property: 25 rows at 10 per page make
      3 pages, and a limit of 500 falls back to the default. */
  lemma TwentyFiveRowsMakeThreePages()
    ensures TotalPages(25, NormalizeLimit(10)) == 3
    ensures NormalizeLimit(500) == DefaultLimit
  {
  }
}
