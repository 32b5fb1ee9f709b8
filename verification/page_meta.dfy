/**
 The pagination summary `PageMetaDto` built from the requested page, the page
 size (`take`) and the number of matching items.

 `pageCount` is `Math.ceil(itemCount / take)` on JavaScript numbers. For a
 non-zero `take` that is the integer ceiling of the quotient; a zero `take`
 makes the quotient `Infinity`, `-Infinity` or `NaN`, which `Count` keeps
 apart so that `page < pageCount` can be given its JavaScript meaning.
 */
module PageMeta {

  /** The `page` and `take` the caller asked for. */
  datatype PageOptions = PageOptions(page: int, take: int)

  /** A page count as a JavaScript number: an integer, an infinity, or NaN. */
  datatype Count =
    | Finite(n: int)
    | Infinite(positive: bool)
    | NotANumber

  datatype PageMetaDto = PageMetaDto(
    page: int,
    take: int,
    itemCount: int,
    pageCount: Count,
    hasPreviousPage: bool,
    hasNextPage: bool
  )

  /** The least integer not below the real quotient `n / d`. */
  function CeilDiv(n: int, d: int): (q: int)
    requires d != 0
    ensures d > 0 ==> (q - 1) * d < n <= q * d
    ensures d < 0 ==> q * d <= n < (q - 1) * d
  {
    if d > 0 then -((-n) / d) else -(n / (-d))
  }

  /** `Math.ceil(itemCount / take)`. */
  function PageCount(itemCount: int, take: int): (c: Count)
    ensures take != 0 <==> c.Finite?
    ensures take == 0 ==> (c.NotANumber? <==> itemCount == 0)
    ensures take == 0 && itemCount != 0 ==> c == Infinite(itemCount > 0)
  {
    if take != 0 then Finite(CeilDiv(itemCount, take))
    else if itemCount == 0 then NotANumber
    else Infinite(itemCount > 0)
  }

  /** JavaScript `page < c` for an integer `page`; every comparison with NaN is false. */
  predicate Below(page: int, c: Count) {
    match c
    case Finite(n) => page < n
    case Infinite(positive) => positive
    case NotANumber => false
  }

  /** The `PageMetaDto` constructor. */
  function MakePageMeta(options: PageOptions, itemCount: int): (m: PageMetaDto)
    ensures m.page == options.page && m.take == options.take && m.itemCount == itemCount
    ensures options.take > 0 ==>
      m.pageCount.Finite? && (m.pageCount.n - 1) * options.take < itemCount <= m.pageCount.n * options.take
    ensures m.hasPreviousPage <==> options.page > 1
    ensures m.hasNextPage <==> Below(options.page, m.pageCount)
  {
    var pageCount := PageCount(itemCount, options.take);
    PageMetaDto(options.page, options.take, itemCount, pageCount,
                options.page > 1, Below(options.page, pageCount))
  }

  /** The ceiling is the only integer between those bounds. */
  lemma CeilDivUnique(n: int, d: int, q: int)
    requires d > 0 && (q - 1) * d < n <= q * d
    ensures q == CeilDiv(n, d)
  {
    var c := CeilDiv(n, d);
    if q < c {
      MulMonotone(q, c - 1, d);
    } else if q > c {
      MulMonotone(c, q - 1, d);
    }
  }

  lemma MulMonotone(a: int, b: int, d: int)
    requires a <= b && d > 0
    ensures a * d <= b * d
  {
    assert b * d - a * d == (b - a) * d;
  }

  /** No items means no pages: zero pages for any non-zero page size, and no
      next page for any non-negative page, whatever the page size. */
  lemma NoItemsNoNextPage(options: PageOptions)
    ensures options.take != 0 ==> MakePageMeta(options, 0).pageCount == Finite(0)
    ensures options.page >= 0 ==> !MakePageMeta(options, 0).hasNextPage
  {
    if options.take > 0 {
      CeilDivUnique(0, options.take, 0);
    } else if options.take < 0 {
      CeilDivUnique(0, -options.take, 0);
    }
  }

  /** `k` full pages of `take` items give exactly `k` pages. */
  lemma ExactMultiple(k: int, take: int)
    requires take > 0
    ensures PageCount(k * take, take) == Finite(k)
  {
    CeilDivUnique(k * take, take, k);
  }

  /** One item more than `k` full pages opens page `k + 1`. */
  lemma OneItemOver(k: int, take: int)
    requires take > 0
    ensures PageCount(k * take + 1, take) == Finite(k + 1)
  {
    CeilDivUnique(k * take + 1, take, k + 1);
  }

  /** For a positive page size there is a next page exactly when the items
      before the end of the current page do not exhaust the count. */
  lemma HasNextIffMoreItems(options: PageOptions, itemCount: int)
    requires options.take > 0
    ensures MakePageMeta(options, itemCount).hasNextPage <==> options.page * options.take < itemCount
  {
    var q := CeilDiv(itemCount, options.take);
    if options.page < q {
      MulMonotone(options.page, q - 1, options.take);
    } else {
      MulMonotone(q, options.page, options.take);
    }
  }

  /** A non-negative count gives a non-negative number of pages, and at least
      one page once there is an item. */
  lemma PageCountBounds(itemCount: int, take: int)
    requires take > 0 && itemCount >= 0
    ensures PageCount(itemCount, take).n >= 0
    ensures itemCount > 0 ==> PageCount(itemCount, take).n >= 1
  {
    var q := CeilDiv(itemCount, take);
    if q < 0 {
      MulMonotone(q, -1, take);
    }
  }

  /** The last page has no next page, and it has a previous one exactly when
      the items do not fit on a single page. */
  lemma LastPage(options: PageOptions, itemCount: int)
    requires options.take > 0
    requires PageCount(itemCount, options.take) == Finite(options.page)
    ensures !MakePageMeta(options, itemCount).hasNextPage
    ensures MakePageMeta(options, itemCount).hasPreviousPage <==> itemCount > options.take
  {
    var p, t := options.page, options.take;
    assert (p - 1) * t < itemCount <= p * t;
    if p > 1 {
      MulMonotone(1, p - 1, t);
    } else {
      MulMonotone(p, 1, t);
    }
  }

  /** A page size of 0 makes the quotient infinite: any positive count then
      reports a next page for every page. */
  lemma ZeroTakeAlwaysHasNext(page: int, itemCount: int)
    requires itemCount > 0
    ensures MakePageMeta(PageOptions(page, 0), itemCount).pageCount == Infinite(true)
    ensures MakePageMeta(PageOptions(page, 0), itemCount).hasNextPage
  {
  }
}
