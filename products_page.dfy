/**
 * The all-products listing: the root categories in the sidebar, the price
 * filter (the only filter it applies), the colour checkboxes, the sort, and
 * the guarded page change.
 */
module ProductsPage {
  import opened Common
  import opened Catalog

  /** `cat => cat.parent_id === ""`. */
  predicate IsRoot(c: Category) {
    c.parentId == ""
  }

  /** The sidebar categories: those without a parent, in list order. */
  function RootCategories(cats: seq<Category>): (r: seq<Category>)
    ensures forall c :: c in r <==> c in cats && c.parentId == ""
    ensures multiset(r) <= multiset(cats)
  {
    Filter(cats, IsRoot)
  }

  /** `price >= min && price <= max`, as a predicate for `filter`. */
  function InRange(min: int, max: int): Product -> bool {
    (p: Product) => InPriceRange(p, min, max)
  }

  /** `filteredProducts`: the products whose price lies in the range, in list order. */
  function FilterProducts(ps: seq<Product>, f: Filters): (r: seq<Product>)
    ensures forall x :: x in r <==> x in ps && f.minPrice <= x.price <= f.maxPrice
    ensures multiset(r) <= multiset(ps)
  {
    Filter(ps, InRange(f.minPrice, f.maxPrice))
  }

  /** The colours and the category chosen never change what is listed: only the price range does. */
  lemma OnlyPriceFilters(ps: seq<Product>, f: Filters, g: Filters)
    requires f.minPrice == g.minPrice && f.maxPrice == g.maxPrice
    ensures FilterProducts(ps, f) == FilterProducts(ps, g)
  {
  }

  /** `handleColorFilter`'s new list: drop every copy of the colour when ticked, append it otherwise. */
  function ToggleColor(colors: seq<string>, c: string): (r: seq<string>)
    ensures c in colors ==> c !in r
    ensures c !in colors ==> c in r
    ensures forall d :: d != c ==> (d in r <==> d in colors)
  {
    if c in colors then RemoveAll(colors, c) else colors + [c]
  }

  /** Ticking an unticked colour and unticking it again gives back the same list. */
  lemma ToggleTwiceRestores(colors: seq<string>, c: string)
    requires c !in colors
    ensures ToggleColor(ToggleColor(colors, c), c) == colors
  {
    FilterAppend(colors, [c], Differs(c));
    FilterAll(colors, Differs(c));
  }

  /** The sorted list the page shows, before pagination. */
  function Listing(ps: seq<Product>, f: Filters, mode: string): (r: seq<Product>)
    ensures forall x :: x in r <==> x in ps && f.minPrice <= x.price <= f.maxPrice
  {
    SortKeepsProducts(FilterProducts(ps, f), mode);
    SortProducts(FilterProducts(ps, f), mode)
  }

  /**
   * The range starts at 0..2000 and the slider, whose top is 2000, only sets
   * the upper bound; so under any range the page can reach, no product dearer
   * than 2000 VND is listed.
   */
  lemma SliderHidesDearerProducts(ps: seq<Product>, f: Filters, mode: string)
    requires f.maxPrice <= 2000
    ensures forall x :: x in Listing(ps, f, mode) ==> x.price <= 2000
    ensures forall x :: x in ps && x.price > 2000 ==> x !in Listing(ps, f, mode)
  {
  }

  class ProductListing {
    var products: seq<Product>
    var categories: seq<Category>
    var newProducts: seq<Product>
    var rootCategories: Option<seq<Category>>
    var loading: bool
    var filters: Filters
    var itemsPerPage: nat
    var sortBy: string
    var currentPage: int

    /** The page size is positive and the current page is at least 1. */
    predicate Valid()
      reads this
    {
      itemsPerPage >= 1 && currentPage >= 1
    }

    constructor ()
      ensures Valid()
      ensures products == [] && categories == [] && newProducts == [] && rootCategories.None? && loading
      ensures filters == InitialFilters && itemsPerPage == 6 && sortBy == "featured" && currentPage == 1
    {
      products := [];
      categories := [];
      newProducts := [];
      rootCategories := None;
      loading := true;
      filters := InitialFilters;
      itemsPerPage := 6;
      sortBy := "featured";
      currentPage := 1;
    }

    /** What the page lists for the current state, before pagination. */
    function Shown(): seq<Product>
      reads this
    {
      Listing(products, filters, sortBy)
    }

    /** `Math.ceil(sortedProducts.length / itemsPerPage)`. */
    function PageCount(): nat
      reads this
      requires Valid()
    {
      TotalPages(|Shown()|, itemsPerPage)
    }

    /**
     * The fetch on mount. A throw changes nothing but the loading flag.
     * Otherwise products (or `[]`), categories (or `[]`) and the first three
     * products are stored, and, when the category list exists, the sidebar
     * gets its root categories.
     */
    method Fetch(reply: FetchReply)
      requires Valid()
      modifies this
      ensures Valid() && !loading
      ensures filters == old(filters) && itemsPerPage == old(itemsPerPage)
      ensures sortBy == old(sortBy) && currentPage == old(currentPage)
      ensures reply.FetchThrew? ==>
        products == old(products) && categories == old(categories)
        && newProducts == old(newProducts) && rootCategories == old(rootCategories)
      ensures reply.Fetched? ==>
        products == reply.products.GetOr([]) && categories == reply.categories.GetOr([])
        && newProducts == Take(reply.products.GetOr([]), 3)
      ensures reply.Fetched? ==>
        rootCategories == if reply.categories.Some? then Some(RootCategories(reply.categories.value))
                          else old(rootCategories)
    {
      loading := true;
      if reply.Fetched? {
        ApplyFetched(reply.products, reply.categories);
      }
      loading := false;
    }

    /** The successful branch of the fetch: both lists default to `[]`, the root list is derived only when categories came back. */
    method ApplyFetched(ps: Option<seq<Product>>, cs: Option<seq<Category>>)
      modifies this
      ensures products == ps.GetOr([]) && categories == cs.GetOr([])
      ensures newProducts == Take(ps.GetOr([]), 3)
      ensures rootCategories == if cs.Some? then Some(RootCategories(cs.value)) else old(rootCategories)
      ensures filters == old(filters) && itemsPerPage == old(itemsPerPage)
      ensures sortBy == old(sortBy) && currentPage == old(currentPage) && loading == old(loading)
    {
      products := ps.GetOr([]);
      categories := cs.GetOr([]);
      newProducts := Take(products, 3);
      if cs.Some? {
        rootCategories := Some(RootCategories(cs.value));
      }
    }

    /** A non-empty `?category=` query parameter replaces the category filter (which filters nothing here). */
    method QueryCategory(param: Option<string>)
      modifies this
      ensures Truthy(param) ==> filters == old(filters).(category := param)
      ensures !Truthy(param) ==> filters == old(filters)
      ensures currentPage == old(currentPage) && itemsPerPage == old(itemsPerPage)
      ensures products == old(products) && sortBy == old(sortBy)
    {
      if Truthy(param) {
        filters := filters.(category := param);
      }
    }

    /** `handlePriceRangeChange`: the range changes and the page number is kept. */
    method PriceRangeChange(min: int, max: int)
      modifies this
      ensures filters == old(filters).(minPrice := min, maxPrice := max)
      ensures currentPage == old(currentPage) && itemsPerPage == old(itemsPerPage)
      ensures products == old(products) && sortBy == old(sortBy)
    {
      filters := filters.(minPrice := min, maxPrice := max);
    }

    /** `handleColorFilter`: only the colour list changes, and only in colour `c`. */
    method ColorFilter(c: string)
      modifies this
      ensures filters == old(filters).(colors := ToggleColor(old(filters).colors, c))
      ensures currentPage == old(currentPage) && itemsPerPage == old(itemsPerPage)
      ensures products == old(products) && sortBy == old(sortBy)
    {
      filters := filters.(colors := ToggleColor(filters.colors, c));
    }

    /** The sort select. */
    method SortChange(mode: string)
      modifies this
      ensures sortBy == mode
      ensures filters == old(filters) && currentPage == old(currentPage) && itemsPerPage == old(itemsPerPage)
      ensures products == old(products)
    {
      sortBy := mode;
    }

    /** The items-per-page select as this page has it: the size changes and the page number is kept. */
    method ItemsPerPageChangeAsWritten(k: nat)
      requires Valid() && k >= 1
      modifies this
      ensures Valid()
      ensures itemsPerPage == k && currentPage == old(currentPage)
      ensures filters == old(filters) && sortBy == old(sortBy) && products == old(products)
    {
      itemsPerPage := k;
    }

    /** The items-per-page select with the reset to page 1 the category listing performs. */
    method ItemsPerPageChange(k: nat)
      requires Valid() && k >= 1
      modifies this
      ensures Valid()
      ensures itemsPerPage == k && currentPage == 1
      ensures filters == old(filters) && sortBy == old(sortBy) && products == old(products)
    {
      itemsPerPage := k;
      currentPage := 1;
    }

    /** `handlePageChange`: a page below 1 or past the last one is ignored. */
    method PageChange(page: int)
      requires Valid()
      modifies this
      ensures Valid()
      ensures 1 <= page <= old(PageCount()) ==> currentPage == page
      ensures !(1 <= page <= old(PageCount())) ==> currentPage == old(currentPage)
      ensures filters == old(filters) && sortBy == old(sortBy) && itemsPerPage == old(itemsPerPage)
      ensures products == old(products)
    {
      var last := PageCount();
      if page < 1 || page > last {
        return;
      }
      currentPage := page;
    }
  }

  /** The page guard accepts exactly the pages that show at least one product. */
  lemma PageChangeAcceptsNonEmptyPages(s: seq<Product>, k: nat, page: int)
    requires k >= 1 && page >= 1
    ensures page <= TotalPages(|s|, k) <==> PageSlice(s, page, k) != []
  {
    PageEmptyIffPastLast(s, page, k);
  }

  /**
   * Ten products on page 2 of 6 per page; choosing 20 per page keeps page 2,
   * which is now empty, and with a single page the page buttons are gone.
   */
  lemma ResizeStrandsPage(s: seq<Product>)
    requires |s| == 10
    ensures PageSlice(s, 2, 6) != [] && TotalPages(|s|, 6) == 2
    ensures PageSlice(s, 2, 20) == [] && TotalPages(|s|, 20) == 1
  {
    PageEmptyIffPastLast(s, 2, 6);
    PageEmptyIffPastLast(s, 2, 20);
    TotalPagesLeast(10, 6, 2);
    TotalPagesLeast(10, 20, 1);
  }

  /** With the reset, a new page size always lands on a page that shows something whenever anything matches. */
  lemma ResizeWithResetShowsProducts(s: seq<Product>, k: nat)
    requires k >= 1 && s != []
    ensures PageSlice(s, 1, k) != []
  {
    FirstPageShows(s, k);
  }
}
