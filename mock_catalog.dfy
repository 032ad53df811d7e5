/**
 * The stand-alone product list with mock data: the search box, the category
 * and price-range radios (price ranges are `"min-max"` strings), the sort
 * select, and the filter state, an object whose keys are replaced one at a
 * time.
 *
 * `toLowerCase` and the collation of `localeCompare` are parameters: `lower`
 * maps a string to its lower-case form and `nameRank` places a name in the
 * collation order. Ratings are kept in tenths (4.8 is 48).
 */
module MockCatalog {
  import opened Common
  import opened Sorting

  datatype MockProduct = MockProduct(id: int, name: string, price: int, category: string, rating: int, inStock: bool)

  /** The six products the page loads after its one-second timer. */
  const MockProducts: seq<MockProduct> := [
    MockProduct(1, "iPhone 15 Pro", 25000000, "Điện tử", 48, true),
    MockProduct(2, "Samsung Galaxy S24", 22000000, "Điện tử", 46, true),
    MockProduct(3, "Áo thun nam", 299000, "Thời trang", 42, true),
    MockProduct(4, "Quần jeans nữ", 599000, "Thời trang", 45, false),
    MockProduct(5, "Máy pha cà phê", 1500000, "Gia dụng", 47, true),
    MockProduct(6, "Sách lập trình", 150000, "Sách", 49, true)
  ]

  /** The category meaning "no category filter". */
  const AllCategories := "Tất cả"

  // ---------------------------------------------------------------------------
  // The "min-max" price range
  // ---------------------------------------------------------------------------

  /**
   * `Number(part)` for a piece of a price range: a string of digits (the
   * empty one reads as 0) has its decimal value, anything else is NaN (`None`).
   */
  function NumberOf(part: string): (r: Option<int>)
    ensures r.Some? <==> AllDigits(part)
    ensures part == "" ==> r == Some(0)
    ensures r.Some? ==> r.value >= 0
  {
    if AllDigits(part) then Some(DigitsValue(part)) else None
  }

  /**
   * `const [min, max] = range.split('-').map(Number)`: the first two pieces
   * as numbers; a missing second piece is `undefined`, read here as `None`
   * like NaN, since both make every comparison false.
   */
  function PriceBounds(range: string): (b: (Option<int>, Option<int>))
    ensures b.0 == NumberOf(SplitOn(range, '-')[0])
    ensures |SplitOn(range, '-')| < 2 ==> b.1.None?
  {
    var parts := SplitOn(range, '-');
    (NumberOf(parts[0]), if |parts| >= 2 then NumberOf(parts[1]) else None)
  }

  /** `!(price < min || price > max)`: a comparison with NaN or `undefined` is false, so it excludes nothing. */
  predicate WithinBounds(price: int, b: (Option<int>, Option<int>)) {
    !(b.0.Some? && price < b.0.value) && !(b.1.Some? && price > b.1.value)
  }

  /** The range `"a-b"` written out by the page parses back to its two bounds. */
  lemma {:induction false} PriceRangeRoundTrip(a: nat, b: nat)
    ensures PriceBounds(ShowNat(a) + "-" + ShowNat(b)) == (Some(a), Some(b))
  {
    var sa, sb := ShowNat(a), ShowNat(b);
    SplitPair(sa, sb, '-');
    ShowNatRoundTrip(a);
    ShowNatRoundTrip(b);
  }

  /** Both bounds of a `"a-b"` range are inclusive: it keeps exactly the prices from `a` to `b`. */
  lemma PriceRangeInclusive(a: nat, b: nat, price: int)
    ensures WithinBounds(price, PriceBounds(ShowNat(a) + "-" + ShowNat(b))) <==> a <= price <= b
  {
    PriceRangeRoundTrip(a, b);
  }

  // ---------------------------------------------------------------------------
  // Filter and sort
  // ---------------------------------------------------------------------------

  /** The search test: an empty term keeps everything, otherwise the lower-cased name contains the lower-cased term. */
  predicate MatchesSearch(p: MockProduct, term: string, lower: string -> string) {
    term == "" || Includes(lower(p.name), lower(term))
  }

  /** The category test: `''` and "Tất cả" keep everything, any other value only that exact category. */
  predicate MatchesCategory(p: MockProduct, category: string) {
    category == "" || category == AllCategories || p.category == category
  }

  /** The price test: an empty range keeps everything, any other is parsed and compared. */
  predicate MatchesPrice(p: MockProduct, range: string) {
    range == "" || WithinBounds(p.price, PriceBounds(range))
  }

  /** The callback of `products.filter`. */
  function Keeps(filters: map<string, string>, term: string, lower: string -> string): MockProduct -> bool {
    (p: MockProduct) =>
      MatchesSearch(p, term, lower) && MatchesCategory(p, Field(filters, "category"))
      && MatchesPrice(p, Field(filters, "priceRange"))
  }

  /** The comparator of `.sort`, as a key: price up, price down, rating down, or the name's collation rank. */
  function SortKey(mode: string, nameRank: string -> int): MockProduct -> int {
    if mode == "price-low" then (p: MockProduct) => p.price
    else if mode == "price-high" then (p: MockProduct) => -p.price
    else if mode == "rating" then (p: MockProduct) => -p.rating
    else (p: MockProduct) => nameRank(p.name)
  }

  /** `filteredProducts`: the kept products, sorted by the chosen mode. */
  function Shown(ps: seq<MockProduct>, filters: map<string, string>, term: string,
                 lower: string -> string, nameRank: string -> int): (r: seq<MockProduct>)
    ensures |r| <= |ps|
  {
    SortBy(Filter(ps, Keeps(filters, term, lower)), SortKey(Field(filters, "sortBy"), nameRank))
  }

  /**
   * What is shown is a permutation of the products passing all three tests,
   * so a product is shown exactly when it passes them.
   */
  lemma ShownIsPermutationOfKept(ps: seq<MockProduct>, filters: map<string, string>, term: string,
                                 lower: string -> string, nameRank: string -> int)
    ensures multiset(Shown(ps, filters, term, lower, nameRank)) == multiset(Filter(ps, Keeps(filters, term, lower)))
    ensures forall p :: p in Shown(ps, filters, term, lower, nameRank) <==>
      p in ps && MatchesSearch(p, term, lower) && MatchesCategory(p, Field(filters, "category"))
      && MatchesPrice(p, Field(filters, "priceRange"))
  {
    var kept := Filter(ps, Keeps(filters, term, lower));
    SortByMembers(kept, SortKey(Field(filters, "sortBy"), nameRank));
  }

  /** The order the sort select promises for each of its options. */
  lemma ShownOrder(ps: seq<MockProduct>, filters: map<string, string>, term: string,
                   lower: string -> string, nameRank: string -> int)
    ensures var r, mode := Shown(ps, filters, term, lower, nameRank), Field(filters, "sortBy");
      mode == "price-low" ==> forall i, j :: 0 <= i < j < |r| ==> r[i].price <= r[j].price
    ensures var r, mode := Shown(ps, filters, term, lower, nameRank), Field(filters, "sortBy");
      mode == "price-high" ==> forall i, j :: 0 <= i < j < |r| ==> r[i].price >= r[j].price
    ensures var r, mode := Shown(ps, filters, term, lower, nameRank), Field(filters, "sortBy");
      mode == "rating" ==> forall i, j :: 0 <= i < j < |r| ==> r[i].rating >= r[j].rating
    ensures var r, mode := Shown(ps, filters, term, lower, nameRank), Field(filters, "sortBy");
      mode !in {"price-low", "price-high", "rating"} ==>
      forall i, j :: 0 <= i < j < |r| ==> nameRank(r[i].name) <= nameRank(r[j].name)
  {
    var kept := Filter(ps, Keeps(filters, term, lower));
    var key := SortKey(Field(filters, "sortBy"), nameRank);
    SortBySorted(kept, key);
  }

  /** With the initial filters and no search term, every product is shown. */
  lemma InitialFiltersShowEverything(ps: seq<MockProduct>, lower: string -> string, nameRank: string -> int)
    ensures multiset(Shown(ps, InitialFilterMap, "", lower, nameRank)) == multiset(ps)
  {
    FilterAll(ps, Keeps(InitialFilterMap, "", lower));
  }

  /** `useState({category: '', priceRange: '', sortBy: 'name'})`. */
  const InitialFilterMap: map<string, string> := map["category" := "", "priceRange" := "", "sortBy" := "name"]

  class MockProductsPage {
    var products: seq<MockProduct>
    var loading: bool
    var filters: map<string, string>
    var searchTerm: string

    constructor ()
      ensures products == [] && loading && filters == InitialFilterMap && searchTerm == ""
    {
      products := [];
      loading := true;
      filters := InitialFilterMap;
      searchTerm := "";
    }

    /** The timer firing: the mock products are stored and loading ends. */
    method Load()
      modifies this
      ensures products == MockProducts && !loading
      ensures filters == old(filters) && searchTerm == old(searchTerm)
    {
      products := MockProducts;
      loading := false;
    }

    /** `handleFilterChange(filterType, value)`: that one key takes the value, every other key keeps its own. */
    method FilterChange(filterType: string, value: string)
      modifies this
      ensures filters == old(filters)[filterType := value]
      ensures forall k :: k in old(filters) && k != filterType ==> k in filters && filters[k] == old(filters)[k]
      ensures filters.Keys == old(filters).Keys + {filterType}
      ensures products == old(products) && searchTerm == old(searchTerm) && loading == old(loading)
    {
      filters := filters[filterType := value];
    }

    /** The search input. */
    method SearchChange(term: string)
      modifies this
      ensures searchTerm == term
      ensures products == old(products) && filters == old(filters) && loading == old(loading)
    {
      searchTerm := term;
    }
  }

  /** Changing one filter key never changes how the other tests read the state. */
  lemma FilterChangeKeepsOtherKeys(filters: map<string, string>, filterType: string, value: string, key: string)
    requires key != filterType
    ensures Field(filters[filterType := value], key) == Field(filters, key)
    ensures Field(filters[filterType := value], filterType) == value
  {
  }
}
