/**
 * The pagination arithmetic of the reusable data table: the server-side
 * `{page, limit, total}` record (pages counted from 1) against the table
 * library's `{pageIndex, pageSize}` state (pages counted from 0).
 */
module TablePagination {
  import opened Wrappers

  /** The server's pagination record; `page` counts from 1. */
  datatype Meta = Meta(page: int, limit: int, total: int)

  /** The table library's pagination state; `pageIndex` counts from 0. */
  datatype PaginationState = PaginationState(pageIndex: int, pageSize: int)

  /** The table's default record, used when the caller passes none. */
  const DefaultMeta := Meta(1, 10, 0)

  /** The page sizes offered by the rows-per-page selector. */
  const RowsPerPageChoices: seq<int> := [10, 20, 50, 100]

  /** `(pagination.page || 1) - 1`: a page of 0 counts as page 1. */
  function PageIndex(p: Meta): (i: int)
    ensures p.page == 0 ==> i == 0
    ensures p.page != 0 ==> i == p.page - 1
  {
    (if p.page != 0 then p.page else 1) - 1
  }

  /** `pagination.limit || 10`: a limit of 0 means ten rows. */
  function PageSize(p: Meta): (n: int)
    ensures n != 0
    ensures p.limit != 0 ==> n == p.limit
    ensures p.limit == 0 ==> n == 10
  {
    if p.limit != 0 then p.limit else 10
  }

  /** The state handed to the table library. */
  function ToState(p: Meta): PaginationState {
    PaginationState(PageIndex(p), PageSize(p))
  }

  /** `Math.floor(a / b)` for a non-zero integer divisor. */
  function FloorDiv(a: int, b: int): (q: int)
    requires b != 0
    ensures b > 0 ==> q * b <= a < q * b + b
    ensures b < 0 ==> q * b >= a > q * b + b
  {
    if b > 0 then a / b else (-a) / (-b)
  }

  /** `Math.ceil(a / b)` for a non-zero integer divisor. */
  function CeilDiv(a: int, b: int): (q: int)
    requires b != 0
    ensures b > 0 ==> q * b - b < a <= q * b
    ensures b < 0 ==> q * b - b > a >= q * b
  {
    -FloorDiv(-a, b)
  }

  /** `Math.ceil((meta.total || 0) / (meta.limit || 10))`: enough pages for every row. */
  function PageCount(meta: Meta): (count: int)
    ensures PageSize(meta) > 0 ==>
      (count - 1) * PageSize(meta) < meta.total <= count * PageSize(meta)
  {
    CeilDiv(meta.total, PageSize(meta))
  }

  /** What `onPaginationChange` receives: a function of the current state, or a new state. */
  datatype Updater = Update(f: PaginationState -> PaginationState) | Replace(state: PaginationState)

  /**
   * `onPaginationChange`: the record passed to `setPagination`, or `None`
   * when the table has no `setPagination`. The library's new 0-based index
   * goes back as a 1-based page; `total` is kept.
   */
  function OnPaginationChange(pagination: Meta, hasSetPagination: bool, updater: Updater): (written: Option<Meta>)
    ensures !hasSetPagination ==> written == None
    ensures hasSetPagination ==> written.Some? && written.value.total == pagination.total
    ensures hasSetPagination && updater.Replace? ==>
      written == Some(Meta(updater.state.pageIndex + 1, updater.state.pageSize, pagination.total))
    ensures hasSetPagination && updater.Update? ==>
      var u := updater.f(ToState(pagination));
      written == Some(Meta(u.pageIndex + 1, u.pageSize, pagination.total))
  {
    if !hasSetPagination then None
    else
      var updated := match updater
        case Update(f) => f(ToState(pagination))
        case Replace(s) => s;
      Some(pagination.(page := updated.pageIndex + 1, limit := updated.pageSize))
  }

  /** Picking `rows` in the rows-per-page selector: that limit, back to page 1, same total. */
  function OnRowsPerPageChange(pagination: Meta, rows: int): (written: Meta)
    ensures written.limit == rows && written.page == 1 && written.total == pagination.total
  {
    pagination.(limit := rows, page := 1)
  }

  // ---------------------------------------------------------------------------
  // Properties

  /** Pages 0 and 1 both show the first page. */
  lemma PageZeroIsFirstPage(p: Meta)
    requires p.page == 0 || p.page == 1
    ensures PageIndex(p) == 0
  {
  }

  /**
   * An updater that leaves the state as it is writes back the same record,
   * as long as the record is already normal (page and limit at least 1).
   */
  lemma IdentityUpdaterKeepsPagination(p: Meta)
    requires p.page >= 1 && p.limit >= 1
    ensures OnPaginationChange(p, true, Update(s => s)) == Some(p)
  {
  }

  /** The mapping round-trips: writing back any state with index at least 0 and reading it again gives that state. */
  lemma StateRoundTrip(p: Meta, s: PaginationState)
    requires s.pageIndex >= 0 && s.pageSize != 0
    ensures var w := OnPaginationChange(p, true, Replace(s)); w.Some? && ToState(w.value) == s
  {
  }

  /** An index of -1 does not survive: page 0 reads back as the first page. */
  lemma NegativeIndexNotPreserved(p: Meta)
    ensures var w := OnPaginationChange(p, true, Replace(PaginationState(-1, 10)));
      w.Some? && ToState(w.value).pageIndex == 0
  {
  }

  /** After a rows-per-page change the table shows the first page with the chosen size. */
  lemma RowsPerPageResets(p: Meta, rows: int)
    requires rows in RowsPerPageChoices
    ensures ToState(OnRowsPerPageChange(p, rows)) == PaginationState(0, rows)
    ensures OnRowsPerPageChange(p, rows).total == p.total
  {
  }

  /** Under the default record there are no rows and no pages. */
  lemma DefaultHasNoPages()
    ensures PageCount(DefaultMeta) == 0
    ensures ToState(DefaultMeta) == PaginationState(0, 10)
  {
  }

  /** One more row than fills the last page adds a page. */
  lemma {:induction false} PageCountGrows(meta: Meta)
    requires meta.limit > 0 && meta.total >= 0
    ensures PageCount(meta.(total := meta.total + meta.limit)) == PageCount(meta) + 1
  {
    var n := PageCount(meta);
    var m := PageCount(meta.(total := meta.total + meta.limit));
    assert (m - 1) * meta.limit < meta.total + meta.limit <= m * meta.limit;
    assert (n - 1) * meta.limit < meta.total <= n * meta.limit;
    assert (m - 2) * meta.limit < meta.total <= (m - 1) * meta.limit;
    PagesUnique(meta.total, meta.limit, n, m - 1);
  }

  /** The page count is the only count whose pages hold exactly the rows. */
  lemma PagesUnique(total: int, limit: int, n: int, k: int)
    requires limit > 0
    requires (n - 1) * limit < total <= n * limit
    requires (k - 1) * limit < total <= k * limit
    ensures n == k
  {
  }
}
