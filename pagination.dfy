/**
 * `PaginatedResponse.create`: the page count and the next/previous flags of a
 * page of results, with the schema's field constraints checked on
 * construction.
 */
module Pagination {
  import opened Wrappers

  datatype Page<T> = Page(items: seq<T>, total: int, page: int, size: int, pages: int, hasNext: bool, hasPrev: bool)

  /** Why construction fails: the page count divides by a zero size, or a field breaks its lower bound. */
  datatype PageError = DivisionByZero | InvalidField

  /** The page count: total / size rounded up, and 1 when there is nothing to show. */
  function PageCount(total: int, size: int): (pages: int)
    requires total >= 0 && size >= 1
    ensures pages >= 1
    ensures total == 0 ==> pages == 1
    ensures total > 0 ==> (pages - 1) * size < total <= pages * size
  {
    if total > 0 then
      var pages := (total + size - 1) / size;
      var rem := (total + size - 1) % size;
      assert total + size - 1 == pages * size + rem;
      assert (pages - 1) * size == pages * size - size;
      pages
    else 1
  }

  /**
   * `create`: pages is the ceiling of total / size (1 for an empty result),
   * there is a next page while the current one is below it and a previous
   * one after the first; the other fields pass through. A zero size with
   * items to count, or a total below 0, a page below 1 or a size below 1,
   * is refused.
   */
  function Create<T>(items: seq<T>, total: int, page: int, size: int): (r: Result<Page<T>, PageError>)
    ensures r.Ok? <==> total >= 0 && page >= 1 && size >= 1
    ensures r.Err? ==> (r.error == DivisionByZero <==> size == 0 && total > 0)
    ensures r.Ok? ==>
      var p := r.value;
      && p.items == items && p.total == total && p.page == page && p.size == size
      && p.pages >= 1
      && (total == 0 ==> p.pages == 1)
      && (total > 0 ==> (p.pages - 1) * size < total <= p.pages * size)
      && (p.hasNext <==> page < p.pages)
      && (p.hasPrev <==> page > 1)
  {
    if total > 0 && size == 0 then Err(DivisionByZero)
    else if total < 0 || page < 1 || size < 1 then Err(InvalidField)
    else
      var pages := PageCount(total, size);
      Ok(Page(items, total, page, size, pages, page < pages, page > 1))
  }

  lemma {:induction false} ScaleStrict(a: int, b: int, size: int)
    requires size >= 1 && a < b
    ensures a * size < b * size
    decreases b - a
  {
    assert (a + 1) * size == a * size + size;
    if a + 1 < b {
      ScaleStrict(a + 1, b, size);
    }
  }

  /** With items to show, there is a next page exactly when the current page ends before the last item. */
  lemma NextIffItemsRemain<T>(items: seq<T>, total: int, page: int, size: int)
    requires total > 0 && page >= 1 && size >= 1
    ensures Create(items, total, page, size).Ok?
    ensures Create(items, total, page, size).value.hasNext <==> page * size < total
  {
    var pages := PageCount(total, size);
    if page < pages {
      if page < pages - 1 {
        ScaleStrict(page, pages - 1, size);
      }
    } else if page > pages {
      ScaleStrict(pages, page, size);
    }
  }

  /** The first page of a non-empty result has no previous page, and it has a next page exactly when the items overflow it. */
  lemma FirstPage<T>(items: seq<T>, total: int, size: int)
    requires total > 0 && size >= 1
    ensures !Create(items, total, 1, size).value.hasPrev
    ensures Create(items, total, 1, size).value.hasNext <==> total > size
  {
    NextIffItemsRemain(items, total, 1, size);
  }
}
