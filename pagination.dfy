/** Page navigation state (`ui_utils/pagination.py`): a page size, a zero-based current
    page and an item count. Python's `//` floors; a zero page size with items raises
    `ZeroDivisionError`, which the model returns as an error. */
module Pagination {
  import opened Wrappers

  const ZeroDivision := "ZeroDivisionError"

  /** Python's `a // b`: the floor of the quotient (Dafny's `/` is Euclidean, which agrees
      only for a positive divisor). */
  function FloorDiv(a: int, b: int): int
    requires b != 0
  {
    if b > 0 then a / b else (-a) / (-b)
  }

  /** `total_pages` */
  function TotalPagesOf(total: int, size: int): (r: Result<int>)
    ensures r.Err? <==> total > 0 && size == 0
    ensures total <= 0 ==> r == Ok(1)
  {
    if total > 0 then
      if size == 0 then Err(ZeroDivision) else Ok(FloorDiv(total + size - 1, size))
    else Ok(1)
  }

  /** With a positive page size the count of pages is the ceiling of total / size for a
      positive total, 1 for none, and so never less than 1. */
  lemma TotalPagesSpec(total: int, size: int)
    requires size > 0
    ensures TotalPagesOf(total, size).Ok?
    ensures TotalPagesOf(total, size).value >= 1
    ensures total > 0 ==>
      (TotalPagesOf(total, size).value - 1) * size < total <= TotalPagesOf(total, size).value * size
  {
    if total > 0 {
      var q := (total + size - 1) / size;
      var r := (total + size - 1) % size;
      assert total + size - 1 == q * size + r && 0 <= r < size;
      assert q * size <= total + size - 1 < q * size + size;
      assert (q - 1) * size == q * size - size;
    }
  }

  /** `has_next` */
  function HasNextOf(page: int, total: int, size: int): (r: Result<bool>)
    ensures r.Err? <==> TotalPagesOf(total, size).Err?
    ensures r.Ok? ==> (r.value <==> page < TotalPagesOf(total, size).value - 1)
  {
    match TotalPagesOf(total, size)
    case Ok(n) => Ok(page < n - 1)
    case Err(e) => Err(e)
  }

  /** `has_prev` */
  predicate HasPrevOf(page: int) {
    page > 0
  }

  /** The page after `next_page`: one further when there is a next page. */
  function NextOf(page: int, total: int, size: int): (r: Result<int>)
    ensures r.Err? <==> TotalPagesOf(total, size).Err?
  {
    match HasNextOf(page, total, size)
    case Ok(b) => Ok(if b then page + 1 else page)
    case Err(e) => Err(e)
  }

  /** The page after `prev_page`: one back when there is a previous page. */
  function PrevOf(page: int): int {
    if HasPrevOf(page) then page - 1 else page
  }

  /** The page is one of the pages. */
  predicate InRange(page: int, total: int, size: int) {
    match TotalPagesOf(total, size)
    case Ok(n) => 0 <= page < n
    case Err(_) => false
  }

  /** Moving forward or back changes the page by exactly one when allowed and otherwise not
      at all, so a page in range stays in range. */
  lemma MovesKeepRange(page: int, total: int, size: int)
    requires size > 0 && InRange(page, total, size)
    ensures NextOf(page, total, size).Ok? && InRange(NextOf(page, total, size).value, total, size)
    ensures InRange(PrevOf(page), total, size)
    ensures var n := NextOf(page, total, size).value; n == page || n == page + 1
    ensures PrevOf(page) == page || PrevOf(page) == page - 1
  {
    TotalPagesSpec(total, size);
  }

  /** `next_page` followed by `prev_page` returns to the page whenever a next page
      existed. */
  lemma NextThenPrev(page: int, total: int, size: int)
    requires page >= 0 && HasNextOf(page, total, size) == Ok(true)
    ensures PrevOf(NextOf(page, total, size).value) == page
  {
  }

  /** The last page has no next page and the first has no previous one. */
  lemma Edges(total: int, size: int)
    requires size > 0
    ensures HasNextOf(TotalPagesOf(total, size).value - 1, total, size) == Ok(false)
    ensures !HasPrevOf(0)
  {
    TotalPagesSpec(total, size);
  }

  class PaginationMixin {
    var pageSize: int
    var currentPage: int
    var totalItemsCount: int
    /** How often the `on_page_change` hook has run; the hook itself does nothing. */
    ghost var changes: nat

    constructor ()
      ensures pageSize == 20 && currentPage == 0 && totalItemsCount == 0 && changes == 0
    {
      pageSize := 20;
      currentPage := 0;
      totalItemsCount := 0;
      changes := 0;
    }

    function TotalPages(): Result<int>
      reads this
    {
      TotalPagesOf(totalItemsCount, pageSize)
    }

    function HasNext(): Result<bool>
      reads this
    {
      HasNextOf(currentPage, totalItemsCount, pageSize)
    }

    predicate HasPrev()
      reads this
    {
      HasPrevOf(currentPage)
    }

    /** `next_page`: reading `has_next` raises for a zero page size with items, and then
        nothing changes. */
    method NextPage() returns (r: Result<()>)
      modifies this`currentPage, this`changes
      ensures r.Err? <==> old(TotalPages()).Err?
      ensures r.Ok? ==> currentPage == NextOf(old(currentPage), totalItemsCount, pageSize).value
      ensures r.Ok? && old(HasNext()) == Ok(true) ==> changes == old(changes) + 1
      ensures !(r.Ok? && old(HasNext()) == Ok(true)) ==> currentPage == old(currentPage) && changes == old(changes)
    {
      match HasNext()
      case Err(e) =>
        return Err(e);
      case Ok(b) =>
        if b {
          currentPage := currentPage + 1;
          OnPageChange();
        }
        return Ok(());
    }

    /** `prev_page` */
    method PrevPage()
      modifies this`currentPage, this`changes
      ensures currentPage == PrevOf(old(currentPage))
      ensures changes == if old(HasPrev()) then old(changes) + 1 else old(changes)
    {
      if HasPrev() {
        currentPage := currentPage - 1;
        OnPageChange();
      }
    }

    /** `set_current_page`: the page is stored unchecked and the hook runs. */
    method SetCurrentPage(page: int)
      modifies this`currentPage, this`changes
      ensures currentPage == page && changes == old(changes) + 1
    {
      currentPage := page;
      OnPageChange();
    }

    /** The hook for sub-classes; here it changes no state. */
    method OnPageChange()
      modifies this`changes
      ensures changes == old(changes) + 1
    {
      changes := changes + 1;
    }
  }
}
