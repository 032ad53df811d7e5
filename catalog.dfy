/**
 * The rules the two storefront product listings share: the discounted price,
 * the badge, the sort orders, the page arithmetic and the category lookup.
 * Each listing page writes them out again; they are defined once here.
 *
 * Prices are whole VND. A discounted price `price - price * d / 100` is kept
 * as `price * (100 - d)`, exactly 100 times it, so that no division is needed.
 */
module Catalog {
  import opened Common
  import Sorting

  /** A product as the listings read it; `None` is a field the JSON lacks. */
  datatype Product = Product(
    id: string,
    title: string,
    price: int,
    discountPercentage: Option<int>,
    position: Option<int>,
    rating: Option<int>,
    createdAt: int,
    categoryId: string)

  /** A category: its id, its parent's id (`""` for a root), its slug and its title. */
  datatype Category = Category(id: string, parentId: string, slug: string, title: string)

  /** `getDiscountedPrice`, times 100: the price itself when the discount is 0 or absent. */
  function DiscountedPrice100(price: int, d: Option<int>): (r: int)
    ensures d.None? || d.value == 0 ==> r == 100 * price
    ensures d.Some? && d.value != 0 ==> r == price * (100 - d.value)
  {
    if d.None? || d.value == 0 then 100 * price else price * (100 - d.value)
  }

  /** A discount between 0 and 100 never raises a non-negative price, and never makes it negative. */
  lemma DiscountBounds(price: int, d: Option<int>)
    requires price >= 0 && (d.Some? ==> 0 <= d.value <= 100)
    ensures 0 <= DiscountedPrice100(price, d) <= 100 * price
  {
    if d.Some? && d.value != 0 {
      assert price * (100 - d.value) == 100 * price - price * d.value;
      assert price * d.value >= 0 && price * (100 - d.value) >= 0;
    }
  }

  /** A larger discount gives a price no higher. */
  lemma DiscountMonotone(price: int, d1: int, d2: int)
    requires price >= 0 && d1 <= d2
    ensures DiscountedPrice100(price, Some(d2)) <= DiscountedPrice100(price, Some(d1))
  {
    assert price * (100 - d2) <= price * (100 - d1);
  }

  /** The kinds of badge a product card can carry. */
  datatype Badge = Discount(percent: int) | Hot | Sale | New

  /** `d >= 20` on a field that may be absent: an absent field compares false. */
  predicate BigDiscount(p: Product) {
    p.discountPercentage.Some? && p.discountPercentage.value >= 20
  }

  /** `position <= n` on a field that may be absent: an absent field compares false. */
  predicate PositionAtMost(p: Product, n: int) {
    p.position.Some? && p.position.value <= n
  }

  /**
   * `getProductBadge`: a discount of 20% or more wins; otherwise the position
   * gives Hot up to 3, Sale up to 6 and New up to 9; otherwise no badge.
   */
  function ProductBadge(p: Product): (b: Option<Badge>)
    ensures BigDiscount(p) <==> b.Some? && b.value.Discount?
    ensures b.Some? && b.value.Discount? ==> b.value.percent == p.discountPercentage.value
    ensures b == Some(Hot) <==> !BigDiscount(p) && PositionAtMost(p, 3)
    ensures b == Some(Sale) <==> !BigDiscount(p) && PositionAtMost(p, 6) && !PositionAtMost(p, 3)
    ensures b == Some(New) <==> !BigDiscount(p) && PositionAtMost(p, 9) && !PositionAtMost(p, 6)
    ensures b.None? <==> !BigDiscount(p) && !PositionAtMost(p, 9)
  {
    if BigDiscount(p) then Some(Discount(p.discountPercentage.value))
    else if PositionAtMost(p, 3) then Some(Hot)
    else if PositionAtMost(p, 6) then Some(Sale)
    else if PositionAtMost(p, 9) then Some(New)
    else None
  }

  /** Without a big discount, every position up to 3 earns Hot, whatever the product's other fields. */
  lemma BadgeOfTopPositions(p: Product, pos: int)
    requires !BigDiscount(p) && pos <= 3
    ensures ProductBadge(p.(position := Some(pos))) == Some(Hot)
  {
  }

  /** How prominent a badge is: a discount above Hot, above Sale, above New, above none. */
  function BadgeLevel(b: Option<Badge>): (n: nat)
    ensures n == 0 <==> b.None?
  {
    match b
    case None => 0
    case Some(New) => 1
    case Some(Sale) => 2
    case Some(Hot) => 3
    case Some(Discount(_)) => 4
  }

  /**
   * Moving a product up the ranking (to a smaller position, or giving a
   * position to one that had none) never makes its badge less prominent.
   */
  lemma BadgeMonotoneInPosition(p: Product, pos: int)
    requires p.position.None? || pos <= p.position.value
    ensures BadgeLevel(ProductBadge(p)) <= BadgeLevel(ProductBadge(p.(position := Some(pos))))
  {
  }

  /** The discounted price, times 100: the key of 'price-low'. */
  function PriceAscending(p: Product): int {
    DiscountedPrice100(p.price, p.discountPercentage)
  }

  /** The key of 'price-high'. */
  function PriceDescending(p: Product): int {
    -DiscountedPrice100(p.price, p.discountPercentage)
  }

  /** The key of 'rating': `(b.rating || 0) - (a.rating || 0)`. */
  function RatingDescending(p: Product): int {
    if p.rating.Some? then -p.rating.value else 0
  }

  /** The key of 'newest'. */
  function NewestFirst(p: Product): int {
    -p.createdAt
  }

  /** The comparator that answers 0: 'featured' and any unknown mode. */
  function Unordered(p: Product): int {
    0
  }

  /** The key the sort comparator of mode `mode` orders by. */
  function KeyFor(mode: string): Product -> int {
    if mode == "price-low" then PriceAscending
    else if mode == "price-high" then PriceDescending
    else if mode == "rating" then RatingDescending
    else if mode == "newest" then NewestFirst
    else Unordered
  }

  /** `[...filtered].sort(comparator)`: a permutation of its input. */
  function SortProducts(ps: seq<Product>, mode: string): (r: seq<Product>)
    ensures |r| == |ps| && multiset(r) == multiset(ps)
  {
    Sorting.SortBy(ps, KeyFor(mode))
  }

  /**
   * Each mode orders as its label says: 'price-low' by non-decreasing
   * discounted price, 'price-high' by non-increasing, 'rating' by
   * non-increasing rating (absent read as 0), 'newest' by non-increasing
   * creation time; any other mode leaves the order as it was.
   */
  lemma SortOrders(ps: seq<Product>, mode: string)
    ensures var r := SortProducts(ps, mode);
      && (mode == "price-low" ==> forall i, j :: 0 <= i < j < |r| ==> PriceAscending(r[i]) <= PriceAscending(r[j]))
      && (mode == "price-high" ==> forall i, j :: 0 <= i < j < |r| ==> PriceAscending(r[i]) >= PriceAscending(r[j]))
      && (mode == "rating" ==> forall i, j :: 0 <= i < j < |r| ==> RatingDescending(r[i]) <= RatingDescending(r[j]))
      && (mode == "newest" ==> forall i, j :: 0 <= i < j < |r| ==> r[i].createdAt >= r[j].createdAt)
      && (mode !in {"price-low", "price-high", "rating", "newest"} ==> r == ps)
  {
    var r := SortProducts(ps, mode);
    Sorting.SortBySorted(ps, KeyFor(mode));
    if mode == "price-high" {
      assert forall i, j :: 0 <= i < j < |r| ==> PriceDescending(r[i]) <= PriceDescending(r[j]);
    } else if mode == "newest" {
      assert forall i, j :: 0 <= i < j < |r| ==> NewestFirst(r[i]) <= NewestFirst(r[j]);
    } else if mode !in {"price-low", "price-high", "rating", "newest"} {
      Sorting.ConstantKeyKeepsOrder(ps, KeyFor(mode), 0);
    }
  }

  /** Sorting shows exactly the products it was given. */
  lemma SortKeepsProducts(ps: seq<Product>, mode: string)
    ensures forall p :: p in SortProducts(ps, mode) <==> p in ps
  {
    Sorting.SortByMembers(ps, KeyFor(mode));
  }

  /** `Math.ceil(n / k)` for a positive page size `k`. */
  function TotalPages(n: nat, k: nat): (t: nat)
    requires k >= 1
    ensures t * k >= n
    ensures t == 0 || (t - 1) * k < n
  {
    var t := (n + k - 1) / k;
    PagesArithmetic(n, k, t, (n + k - 1) % k);
    t
  }

  lemma PagesArithmetic(n: nat, k: nat, t: int, m: int)
    requires k >= 1 && n + k - 1 == t * k + m && 0 <= m < k
    ensures t >= 0 && t * k >= n && (t == 0 || (t - 1) * k < n)
  {
    assert (t - 1) * k == t * k - k;
  }

  /** No products, no pages; otherwise the page count is the least that holds them all. */
  lemma TotalPagesLeast(n: nat, k: nat, t: nat)
    requires k >= 1 && t * k >= n
    ensures TotalPages(n, k) <= t
    ensures TotalPages(n, k) == 0 <==> n == 0
  {
    var T := TotalPages(n, k);
    if T > t {
      assert (T - 1) * k >= t * k by {
        assert T - 1 >= t;
        MulMonotone(t, T - 1, k);
      }
    }
  }

  /** Multiplying by a page size keeps order; it serves `TotalPagesLeast` and the page-boundary lemmas. */
  lemma MulMonotone(a: int, b: int, k: nat)
    requires a <= b
    ensures a * k <= b * k
  {
  }

  /** The first index of page `p` (1-based) when pages hold `k` items. */
  function PageStart(p: int, k: nat): int {
    (p - 1) * k
  }

  /**
   * `sorted.slice((p - 1) * k, p * k)` for a page `p >= 1`: at most `k`
   * items, those that follow position `(p - 1) * k`, and none when that
   * position is past the end.
   */
  function PageSlice<T>(s: seq<T>, p: int, k: nat): (r: seq<T>)
    requires p >= 1 && k >= 1
    ensures |r| <= k
    ensures PageStart(p, k) >= |s| ==> r == []
    ensures PageStart(p, k) < |s| ==> |r| == Min(k, |s| - PageStart(p, k))
    ensures forall i :: 0 <= i < |r| ==> PageStart(p, k) + i < |s| && r[i] == s[PageStart(p, k) + i]
  {
    assert PageStart(p, k) >= 0 by { PageBounds(p, k); }
    Window(s, PageStart(p, k), k)
  }

  /** `s.slice(start, start + k)`, both ends clamped to the length of `s` as `slice` does. */
  function Window<T>(s: seq<T>, start: nat, k: nat): (r: seq<T>)
    ensures |r| <= k
    ensures start >= |s| ==> r == []
    ensures start < |s| ==> |r| == Min(k, |s| - start)
    ensures forall i :: 0 <= i < |r| ==> start + i < |s| && r[i] == s[start + i]
  {
    s[Min(start, |s|)..Min(start + k, |s|)]
  }

  lemma WindowIsSlice<T>(s: seq<T>, start: nat, k: nat)
    ensures Window(s, start, k) == s[Min(start, |s|)..Min(start + k, |s|)]
  {
  }

  lemma PageBounds(p: int, k: nat)
    requires p >= 1
    ensures 0 <= PageStart(p, k) && p * k == PageStart(p, k) + k
  {
    assert (p - 1) * k == p * k - k;
  }

  /** Pages 1 to `m`, read one after the other. */
  function Pages<T>(s: seq<T>, k: nat, m: nat): seq<T>
    requires k >= 1
  {
    if m == 0 then [] else Pages(s, k, m - 1) + PageSlice(s, m, k)
  }

  /** Pages 1 to `m` are the first `m * k` items. */
  lemma {:induction false} PagesArePrefix<T>(s: seq<T>, k: nat, m: nat)
    requires k >= 1
    ensures Pages(s, k, m) == s[..Min(m * k, |s|)]
  {
    if m > 0 {
      PagesArePrefix(s, k, m - 1);
      PageBounds(m, k);
      var start := PageStart(m, k);
      assert (m - 1) * k == start;
      WindowIsSlice(s, start, k);
      PrefixThenSlice(s, Min(start, |s|), Min(start + k, |s|));
    }
  }

  /** Reading every page in turn shows every item exactly once, in order. */
  lemma AllPagesShowEverything<T>(s: seq<T>, k: nat)
    requires k >= 1
    ensures Pages(s, k, TotalPages(|s|, k)) == s
  {
    PagesArePrefix(s, k, TotalPages(|s|, k));
  }

  /** A page between 1 and the page count shows something; a page past it shows nothing. */
  lemma PageEmptyIffPastLast<T>(s: seq<T>, p: int, k: nat)
    requires p >= 1 && k >= 1
    ensures PageSlice(s, p, k) == [] <==> p > TotalPages(|s|, k)
  {
    var T := TotalPages(|s|, k);
    PageBounds(p, k);
    if p > T {
      MulMonotone(T, p - 1, k);
    } else {
      MulMonotone(p, T, k);
      assert PageStart(p, k) <= (T - 1) * k by {
        MulMonotone(p - 1, T - 1, k);
      }
    }
  }

  /** `categories.find(c => c._id === id)?.title ?? 'Unknown'`. */
  function CategoryName(cats: seq<Category>, id: string): (name: string)
    ensures (forall c :: c in cats ==> c.id != id) ==> name == "Unknown"
    ensures forall i :: 0 <= i < |cats| && cats[i].id == id && (forall j :: 0 <= j < i ==> cats[j].id != id)
                        ==> name == cats[i].title
  {
    if cats == [] then "Unknown"
    else if cats[0].id == id then cats[0].title
    else
      assert forall i :: 1 <= i < |cats| ==> cats[i] == cats[1..][i - 1];
      CategoryName(cats[1..], id)
  }

  /** The price filter both listings apply: `min <= price <= max`, both ends included. */
  predicate InPriceRange(p: Product, min: int, max: int) {
    min <= p.price <= max
  }

  /**
   * The filter state of a listing: the category (absent when it was set
   * from a slug no category has), the price range and the ticked colours.
   */
  datatype Filters = Filters(category: Option<string>, minPrice: int, maxPrice: int, colors: seq<string>)

  /** `{ category: '', priceRange: { min: 0, max: 2000 }, colors: [] }`. */
  const InitialFilters := Filters(Some(""), 0, 2000, [])

  /** The two answers a listing waits for, products and categories (`None` when the field is missing), or a throw. */
  datatype FetchReply = Fetched(products: Option<seq<Product>>, categories: Option<seq<Category>>) | FetchThrew

  /**
   * Page 1, where a reset leads: when anything matches it shows something,
   * and it is never past the last page.
   */
  lemma FirstPageShows<T>(s: seq<T>, k: nat)
    requires k >= 1 && s != []
    ensures PageSlice(s, 1, k) != [] && 1 <= TotalPages(|s|, k)
  {
    PageEmptyIffPastLast(s, 1, k);
    TotalPagesLeast(|s|, k, TotalPages(|s|, k));
  }
}
