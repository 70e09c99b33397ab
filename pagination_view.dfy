/** The page navigator of the web front end (`components/ui/Pagination.tsx`): hidden when
    there is at most one page, otherwise a "previous" button, the page label and a "next"
    button. The page size is taken positive (a zero size divides by zero, giving
    JavaScript's Infinity or NaN). */
module PaginationView {
  import opened Wrappers
  import Pagination

  /** `Math.ceil(a / b)` for a positive `b` (Euclidean division floors then). */
  function CeilDiv(a: int, b: int): int
    requires b > 0
  {
    -((-a) / b)
  }

  /** `Math.ceil(total / size)` is the least count of pages of `size` that holds `total`. */
  lemma CeilDivSpec(a: int, b: int)
    requires b > 0
    ensures (CeilDiv(a, b) - 1) * b < a <= CeilDiv(a, b) * b
  {
    var q := (-a) / b;
    var r := (-a) % b;
    assert -a == q * b + r && 0 <= r < b;
    assert (-q - 1) * b == -q * b - b;
  }

  /** A button: whether it is disabled and the page its click requests. */
  datatype Button = Button(disabled: bool, target: int)

  /** What the component renders. */
  datatype View = View(previous: Button, shown: int, of: int, next: Button)

  /** `Pagination({page, total, size, setPage})`: None when it renders `null`. */
  function Render(page: int, total: int, size: int): (r: Option<View>)
    requires size > 0
    ensures r.Some? ==> r.value.of == CeilDiv(total, size) && r.value.of > 1
  {
    var totalPages := CeilDiv(total, size);
    if totalPages <= 1 then None
    else Some(View(Button(page == 0, page - 1), page + 1, totalPages, Button(page >= totalPages - 1, page + 1)))
  }

  /** Nothing is rendered exactly when the items fit on one page. */
  lemma HiddenIff(page: int, total: int, size: int)
    requires size > 0
    ensures Render(page, total, size).None? <==> total <= size
  {
    CeilDivSpec(total, size);
    var c := CeilDiv(total, size);
    if c >= 2 {
      MulMono(1, c - 1, size);
    } else {
      MulMono(c, 1, size);
    }
  }

  lemma MulMono(x: int, y: int, b: int)
    requires x <= y && b > 0
    ensures x * b <= y * b
  {
    assert y * b - x * b == (y - x) * b;
  }

  /** Only one count of pages is the least that holds the items. */
  lemma CeilUnique(a: int, b: int, n: int, c: int)
    requires b > 0
    requires (n - 1) * b < a <= n * b && (c - 1) * b < a <= c * b
    ensures n == c
  {
    if n < c {
      MulMono(n, c - 1, b);
    } else if c < n {
      MulMono(c, n - 1, b);
    }
  }

  /** "Previous" is disabled exactly on the first page and requests the page before;
      "Next" is disabled exactly from the last page on and requests the page after; the
      label counts pages from one. */
  lemma Buttons(page: int, total: int, size: int)
    requires size > 0 && Render(page, total, size).Some?
    ensures var v := Render(page, total, size).value;
      (v.previous.disabled <==> page == 0) && v.previous.target == page - 1
    ensures var v := Render(page, total, size).value;
      (v.next.disabled <==> page >= v.of - 1) && v.next.target == page + 1
    ensures Render(page, total, size).value.shown == page + 1
  {
  }

  /** The front end and the back end count pages alike when there are items, and the
      "next" button is enabled exactly when `has_next` holds. */
  lemma AgreesWithMixin(page: int, total: int, size: int)
    requires size > 0 && total > 0
    ensures Pagination.TotalPagesOf(total, size) == Ok(CeilDiv(total, size))
    ensures Render(page, total, size).Some? ==>
      (!Render(page, total, size).value.next.disabled <==> Pagination.HasNextOf(page, total, size) == Ok(true))
  {
    Pagination.TotalPagesSpec(total, size);
    CeilDivSpec(total, size);
    CeilUnique(total, size, Pagination.TotalPagesOf(total, size).value, CeilDiv(total, size));
  }
}
