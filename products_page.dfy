/** The product list page: its search text, category and page number, the
    product query they produce, and the Previous/Next pagination controls. */
module ProductsPage {
  import opened Wrappers
  import Api

  /** The page always asks for pages of twelve products. */
  const PageSize := 12

  /** The query the page runs for the current search, category and page. */
  function QueryFor(search: string, category: string, page: int): (q: Api.ProductQuery)
    ensures q.search == Some(search) && q.category == Some(category)
    ensures q.page == Some(page) && q.limit == Some(PageSize)
  {
    Api.ProductQuery(Some(search), Some(category), Some(page), Some(PageSize))
  }

  /** The page never lists more than twelve products, all of them matching the
      search and category; a page up to the last one is never empty. */
  lemma ListedProducts(ps: seq<Api.Product>, search: string, category: string, page: int)
    requires page >= 1
    ensures var q := QueryFor(search, category, page); var r := Api.GetProducts(ps, q);
      && |r.products| <= PageSize
      && (forall p :: p in r.products ==> p in ps && Api.Selected(p, q))
      && (|r.products| > 0 <==> page <= r.totalPages)
  {
    var q := QueryFor(search, category, page);
    Api.PageContents(Api.Matching(ps, q), q.page, q.limit);
    Api.PageHoldsSelectedProducts(ps, q);
    Api.PageNonEmptyIffInRange(Api.Matching(ps, q), q.page, q.limit);
  }

  /** `data && data.totalPages > 1`: whether the pagination block is shown. */
  predicate PaginationVisible(data: Option<Api.ProductPage>)
  {
    data.Some? && data.value.totalPages > 1
  }

  class ProductsPageState {
    var search: string
    var category: string
    var page: int

    ghost predicate Valid()
      reads this
    {
      page >= 1
    }

    constructor ()
      ensures Valid() && search == "" && category == "" && page == 1
    {
      search, category, page := "", "", 1;
    }

    /** Typing in the search box; the page number is kept. */
    method SetSearch(s: string)
      requires Valid()
      modifies this
      ensures Valid() && search == s && category == old(category) && page == old(page)
    {
      search := s;
    }

    /** Picking a category in the filter sidebar; the page number is kept. */
    method SetCategory(c: string)
      requires Valid()
      modifies this
      ensures Valid() && category == c && search == old(search) && page == old(page)
    {
      category := c;
    }

    /** `handleSearch`: submitting the search form returns to the first page. */
    method HandleSearch()
      modifies this
      ensures Valid() && page == 1 && search == old(search) && category == old(category)
    {
      page := 1;
    }

    /** `disabled={page === 1}`. */
    function PreviousDisabled(): (b: bool)
      reads this
      ensures b <==> page == 1
    {
      page == 1
    }

    /** `disabled={page === data.totalPages}`. */
    function NextDisabled(totalPages: int): (b: bool)
      reads this
      ensures b <==> page == totalPages
    {
      page == totalPages
    }

    /** The query for the current search, category and page. */
    function Query(): Api.ProductQuery
      reads this
    {
      QueryFor(search, category, page)
    }

    /** A click on Previous, which is shown only while the pagination block
        for `data` is: a disabled button does nothing, an enabled one runs
        `setPage((p) => Math.max(1, p - 1))`. */
    method ClickPrevious(data: Api.ProductPage)
      requires Valid() && PaginationVisible(Some(data))
      modifies this
      ensures Valid() && search == old(search) && category == old(category)
      ensures page == if old(page) == 1 then 1 else (if old(page) - 1 > 1 then old(page) - 1 else 1)
      ensures old(page) <= data.totalPages ==> page <= data.totalPages
    {
      if !PreviousDisabled() {
        page := if page - 1 > 1 then page - 1 else 1;
      }
    }

    /** A click on Next, which is shown only while the pagination block for
        `data` is: a disabled button does nothing, an enabled one runs
        `setPage((p) => p + 1)`. From a page up to the last one, Next never
        leads past the last page; from a page beyond it (the search or the
        category changed while the page number was kept) Next stays enabled
        and keeps counting up. */
    method ClickNext(data: Api.ProductPage)
      requires Valid() && PaginationVisible(Some(data))
      modifies this
      ensures Valid() && search == old(search) && category == old(category)
      ensures page == if old(page) == data.totalPages then old(page) else old(page) + 1
      ensures old(page) <= data.totalPages ==> page <= data.totalPages
      ensures old(page) > data.totalPages ==> page == old(page) + 1
    {
      if !NextDisabled(data.totalPages) {
        page := page + 1;
      }
    }
  }

  /** In any valid state, the data of the page's query lists at most twelve
      matching products, and is non-empty exactly up to the last page. */
  lemma StateListsMatchingProducts(st: ProductsPageState, ps: seq<Api.Product>)
    requires st.Valid()
    ensures var r := Api.GetProducts(ps, st.Query());
      && r.page == st.page
      && |r.products| <= PageSize
      && (forall p :: p in r.products ==> p in ps && Api.Selected(p, st.Query()))
      && (|r.products| > 0 <==> st.page <= r.totalPages)
  {
    ListedProducts(ps, st.search, st.category, st.page);
  }
}
