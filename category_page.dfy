/**
 * The listing of one category and everything below it: the category tree
 * walk, the price and category filter, and the page state with its resets
 * and clamped Prev/Next buttons.
 *
 * The tree walk terminates only when following parents never loops. The
 * model asks for a witness of that: a ghost ranking of category ids that
 * every category ranks below its parent.
 */
module CategoryPage {
  import opened Common
  import opened Catalog

  /** Every category ranks strictly below its parent, so no chain of parents loops. */
  ghost predicate Ranked(cats: seq<Category>, rank: string -> nat) {
    cats == [] || (rank(cats[0].id) < rank(cats[0].parentId) && Ranked(cats[1..], rank))
  }

  /** `Ranked` holds exactly when each category, wherever it sits in the list, ranks below its parent. */
  lemma {:induction false} RankedMembers(cats: seq<Category>, rank: string -> nat)
    ensures Ranked(cats, rank) <==> forall c :: c in cats ==> rank(c.id) < rank(c.parentId)
  {
    if cats != [] {
      RankedMembers(cats[1..], rank);
      assert forall c :: c in cats <==> c == cats[0] || c in cats[1..] by {
        assert cats == [cats[0]] + cats[1..];
      }
    }
  }

  /** A category of a ranked list ranks below its parent. */
  lemma RankedMember(cats: seq<Category>, rank: string -> nat, c: Category)
    requires Ranked(cats, rank) && c in cats
    ensures rank(c.id) < rank(c.parentId)
  {
    RankedMembers(cats, rank);
  }

  /** There is a category `x` whose parent is `p`. */
  predicate ParentOf(cats: seq<Category>, x: string, p: string) {
    exists c :: c in cats && c.id == x && c.parentId == p
  }

  /** `path` climbs from child to parent, one category at a time. */
  ghost predicate Chain(cats: seq<Category>, path: seq<string>) {
    |path| >= 1 && forall i :: 0 <= i < |path| - 1 ==> ParentOf(cats, path[i], path[i + 1])
  }

  /** `x` is `p` or lies below it: a chain of parents leads from `x` to `p`. */
  ghost predicate DescendsFrom(cats: seq<Category>, x: string, p: string) {
    exists path :: Chain(cats, path) && path[0] == x && path[|path| - 1] == p
  }

  /** `categories.filter(cat => cat.parent_id === p)`: the children of `p`, in list order. */
  function Children(cats: seq<Category>, p: string): seq<Category> {
    if cats == [] then []
    else (if cats[0].parentId == p then [cats[0]] else []) + Children(cats[1..], p)
  }

  /** The children of `p` are categories whose parent is `p`. */
  lemma {:induction false} ChildrenSound(cats: seq<Category>, p: string)
    ensures forall c :: c in Children(cats, p) ==> c in cats && c.parentId == p
  {
    if cats != [] {
      ChildrenSound(cats[1..], p);
    }
  }

  /** Every category whose parent is `p` is among its children. */
  lemma {:induction false} ChildrenComplete(cats: seq<Category>, p: string, c: Category)
    requires c in cats && c.parentId == p
    ensures c in Children(cats, p)
  {
    if cats[0] != c {
      ChildrenComplete(cats[1..], p, c);
    }
  }

  /** The children of `p` are exactly the categories whose parent is `p`. */
  lemma ChildrenMembers(cats: seq<Category>, p: string)
    ensures forall c :: c in Children(cats, p) <==> c in cats && c.parentId == p
  {
    ChildrenSound(cats, p);
    forall c | c in cats && c.parentId == p {
      ChildrenComplete(cats, p, c);
    }
  }

  /** `p` followed by the subtrees of its children, each child in list order. */
  function Subtree(cats: seq<Category>, p: string, ghost rank: string -> nat): (r: seq<string>)
    requires Ranked(cats, rank)
    ensures |r| >= 1 && r[0] == p
    decreases rank(p), 1
  {
    [p] + SubtreesUpTo(cats, p, |Children(cats, p)|, rank)
  }

  /** The subtrees of the first `n` children of `p`, one after the other. */
  function SubtreesUpTo(cats: seq<Category>, p: string, n: nat, ghost rank: string -> nat): seq<string>
    requires Ranked(cats, rank)
    requires n <= |Children(cats, p)|
    decreases rank(p), 0, n
  {
    if n == 0 then []
    else
      ChildOf(cats, p, n - 1, rank);
      SubtreesUpTo(cats, p, n - 1, rank) + Subtree(cats, Children(cats, p)[n - 1].id, rank)
  }

  /** Every id in the subtree of `p` descends from `p`. */
  lemma {:induction false} SubtreeSound(cats: seq<Category>, p: string, rank: string -> nat, x: string)
    requires Ranked(cats, rank)
    requires x in Subtree(cats, p, rank)
    ensures DescendsFrom(cats, x, p)
    decreases rank(p), 1
  {
    if x == p {
      assert Chain(cats, [p]);
    } else {
      SubtreesSound(cats, p, |Children(cats, p)|, rank, x);
    }
  }

  /** Every id in the subtrees of children of `p` descends from `p`. */
  lemma {:induction false} SubtreesSound(cats: seq<Category>, p: string, n: nat, rank: string -> nat, x: string)
    requires Ranked(cats, rank)
    requires n <= |Children(cats, p)|
    requires x in SubtreesUpTo(cats, p, n, rank)
    ensures DescendsFrom(cats, x, p)
    decreases rank(p), 0, n
  {
    var k := WhichChild(cats, p, n, rank, x);
    var c := Children(cats, p)[k];
    ChildOf(cats, p, k, rank);
    SubtreeSound(cats, c.id, rank, x);
    DescendsThroughChild(cats, c, p, x);
  }

  /** `x` lies in the subtree of the `k`-th child of `p`. */
  ghost predicate InChildSubtree(cats: seq<Category>, p: string, k: nat, rank: string -> nat, x: string)
    requires Ranked(cats, rank) && k < |Children(cats, p)|
  {
    x in Subtree(cats, Children(cats, p)[k].id, rank)
  }

  /** `x` lies in the subtrees of the first `n` children of `p`. */
  ghost predicate InSubtreesUpTo(cats: seq<Category>, p: string, n: nat, rank: string -> nat, x: string)
    requires Ranked(cats, rank) && n <= |Children(cats, p)|
  {
    x in SubtreesUpTo(cats, p, n, rank)
  }

  /** An id in the subtrees of the first `n` children lies in the subtree of one of them. */
  lemma {:induction false} WhichChild(cats: seq<Category>, p: string, n: nat, rank: string -> nat, x: string) returns (k: nat)
    requires Ranked(cats, rank) && n <= |Children(cats, p)|
    requires InSubtreesUpTo(cats, p, n, rank, x)
    ensures k < n && InChildSubtree(cats, p, k, rank, x)
  {
    SomeChildBefore(cats, p, n, rank, x);
    var m: nat := n - 1;
    if InSubtreesUpTo(cats, p, m, rank, x) {
      k := WhichChild(cats, p, m, rank, x);
    } else {
      InLastSubtree(cats, p, m, rank, x);
      k := m;
    }
  }

  /** An id in the subtrees of the first `m + 1` children but not of the first `m` is in the subtree of child `m`. */
  lemma InLastSubtree(cats: seq<Category>, p: string, m: nat, rank: string -> nat, x: string)
    requires Ranked(cats, rank) && m < |Children(cats, p)|
    requires InSubtreesUpTo(cats, p, m + 1, rank, x) && !InSubtreesUpTo(cats, p, m, rank, x)
    ensures InChildSubtree(cats, p, m, rank, x)
  {
    SubtreesUpToStep(cats, p, m, rank);
  }

  /** Nothing lies in the subtrees of no children. */
  lemma SomeChildBefore(cats: seq<Category>, p: string, n: nat, rank: string -> nat, x: string)
    requires Ranked(cats, rank) && n <= |Children(cats, p)|
    requires InSubtreesUpTo(cats, p, n, rank, x)
    ensures 0 < n
  {
  }

  /** Whatever descends from a child of `p` descends from `p`. */
  lemma DescendsThroughChild(cats: seq<Category>, c: Category, p: string, x: string)
    requires c in cats && c.parentId == p && DescendsFrom(cats, x, c.id)
    ensures DescendsFrom(cats, x, p)
  {
    var path :| Chain(cats, path) && path[0] == x && path[|path| - 1] == c.id;
    var longer := path + [p];
    assert ParentOf(cats, c.id, p);
    assert forall i :: 0 <= i < |path| ==> longer[i] == path[i];
    assert Chain(cats, longer);
  }

  /** The `k`-th child of `p` is a category whose parent is `p`, so it ranks below `p`. */
  lemma ChildOf(cats: seq<Category>, p: string, k: nat, rank: string -> nat)
    requires Ranked(cats, rank) && k < |Children(cats, p)|
    ensures Children(cats, p)[k] in cats && Children(cats, p)[k].parentId == p
    ensures rank(Children(cats, p)[k].id) < rank(p)
  {
    ChildrenSound(cats, p);
    assert Children(cats, p)[k] in Children(cats, p);
    RankedMember(cats, rank, Children(cats, p)[k]);
  }

  /** The subtrees of the first `n` children include the subtree of each of them. */
  lemma SubtreesInclude(cats: seq<Category>, p: string, n: nat, rank: string -> nat, k: nat, x: string)
    requires Ranked(cats, rank)
    requires k < n <= |Children(cats, p)|
    requires InChildSubtree(cats, p, k, rank, x)
    ensures InSubtreesUpTo(cats, p, n, rank, x)
    decreases n, 1
  {
    if k + 1 < n {
      IncludeEarlier(cats, p, n, rank, k, x);
    } else {
      IncludeLast(cats, p, rank, k, x);
    }
  }

  /** A child before the last of the first `n`: its subtree is already among those of the first `n - 1`. */
  lemma IncludeEarlier(cats: seq<Category>, p: string, n: nat, rank: string -> nat, k: nat, x: string)
    requires Ranked(cats, rank)
    requires k + 1 < n <= |Children(cats, p)|
    requires InChildSubtree(cats, p, k, rank, x)
    ensures InSubtreesUpTo(cats, p, n, rank, x)
    decreases n, 0
  {
    var m: nat := n - 1;
    SubtreesInclude(cats, p, m, rank, k, x);
    SubtreesUpToStep(cats, p, m, rank);
    ChildOf(cats, p, m, rank);
    InConcat(x, SubtreesUpTo(cats, p, m, rank), Subtree(cats, Children(cats, p)[m].id, rank));
  }

  /** The last of the first `n` children: its subtree ends the subtrees of the first `n`. */
  lemma IncludeLast(cats: seq<Category>, p: string, rank: string -> nat, k: nat, x: string)
    requires Ranked(cats, rank) && k < |Children(cats, p)|
    requires InChildSubtree(cats, p, k, rank, x)
    ensures InSubtreesUpTo(cats, p, k + 1, rank, x)
  {
    SubtreesUpToStep(cats, p, k, rank);
    ChildOf(cats, p, k, rank);
    InConcat(x, SubtreesUpTo(cats, p, k, rank), Subtree(cats, Children(cats, p)[k].id, rank));
  }

  /** Every id a chain of parents leads from to `p` is in the subtree of `p`. */
  lemma {:induction false} SubtreeComplete(cats: seq<Category>, p: string, rank: string -> nat, path: seq<string>)
    requires Ranked(cats, rank)
    requires Chain(cats, path) && path[|path| - 1] == p
    ensures path[0] in Subtree(cats, p, rank)
    decreases |path|
  {
    if |path| > 1 {
      var y := path[|path| - 2];
      assert ParentOf(cats, y, p);
      var c :| c in cats && c.id == y && c.parentId == p;
      var children := Children(cats, p);
      ChildrenComplete(cats, p, c);
      var k :| 0 <= k < |children| && children[k] == c;
      var shorter := path[..|path| - 1];
      assert Chain(cats, shorter);
      SubtreeComplete(cats, y, rank, shorter);
      SubtreesInclude(cats, p, |children|, rank, k, path[0]);
    }
  }

  /** `getChildCategoryIds(p)` holds exactly `p` and the categories below it. */
  lemma SubtreeMembers(cats: seq<Category>, p: string, rank: string -> nat)
    requires Ranked(cats, rank)
    ensures forall x :: x in Subtree(cats, p, rank) <==> DescendsFrom(cats, x, p)
  {
    forall x ensures x in Subtree(cats, p, rank) <==> DescendsFrom(cats, x, p) {
      if x in Subtree(cats, p, rank) {
        SubtreeSound(cats, p, rank, x);
      }
      if DescendsFrom(cats, x, p) {
        var path :| Chain(cats, path) && path[0] == x && path[|path| - 1] == p;
        SubtreeComplete(cats, p, rank, path);
      }
    }
  }

  /** The subtrees of the first `k + 1` children are those of the first `k`, then the subtree of child `k`. */
  lemma SubtreesUpToStep(cats: seq<Category>, p: string, k: nat, rank: string -> nat)
    requires Ranked(cats, rank) && k < |Children(cats, p)|
    ensures SubtreesUpTo(cats, p, k + 1, rank) == SubtreesUpTo(cats, p, k, rank) + Subtree(cats, Children(cats, p)[k].id, rank)
  {
  }

  /** `ids` holds `p` and the categories below it, and nothing else. */
  ghost predicate ExactlyBelow(cats: seq<Category>, ids: seq<string>, p: string) {
    forall x :: x in ids <==> DescendsFrom(cats, x, p)
  }

  lemma SubtreeExactlyBelow(cats: seq<Category>, p: string, rank: string -> nat)
    requires Ranked(cats, rank)
    ensures ExactlyBelow(cats, Subtree(cats, p, rank), p)
  {
    SubtreeMembers(cats, p, rank);
  }

  /**
   * `getChildCategoryIds`: start from `[p]` and append, child by child, the
   * ids the recursive call returns. The result begins with `p` and holds
   * exactly `p` and the categories below it.
   */
  method ChildCategoryIds(cats: seq<Category>, p: string, ghost rank: string -> nat) returns (ids: seq<string>)
    requires Ranked(cats, rank)
    ensures ids == Subtree(cats, p, rank)
    ensures |ids| >= 1 && ids[0] == p
    ensures ExactlyBelow(cats, ids, p)
    decreases rank(p), 1
  {
    var children := Children(cats, p);
    ids := [p];
    for i := 0 to |children|
      invariant ids == [p] + SubtreesUpTo(cats, p, i, rank)
    {
      ids := AppendChildIds(cats, p, i, rank, ids);
    }
    SubtreeExactlyBelow(cats, p, rank);
  }

  /** One turn of the loop in `getChildCategoryIds`: the ids below child `k` are appended. */
  method AppendChildIds(cats: seq<Category>, p: string, k: nat, ghost rank: string -> nat, ids: seq<string>) returns (r: seq<string>)
    requires Ranked(cats, rank) && k < |Children(cats, p)|
    requires ids == [p] + SubtreesUpTo(cats, p, k, rank)
    ensures r == [p] + SubtreesUpTo(cats, p, k + 1, rank)
    decreases rank(p), 0
  {
    ChildOf(cats, p, k, rank);
    var sub := ChildCategoryIds(cats, Children(cats, p)[k].id, rank);
    SubtreesUpToStep(cats, p, k, rank);
    AppendAssoc([p], SubtreesUpTo(cats, p, k, rank), sub);
    r := ids + sub;
  }

  /** The predicate `filteredProducts` applies, given the category ids it allows. */
  function Keeps(f: Filters, ids: seq<string>): Product -> bool {
    (p: Product) => InPriceRange(p, f.minPrice, f.maxPrice) && (!Truthy(f.category) || p.categoryId in ids)
  }

  /**
   * `filteredProducts`: a product stays when its price is in the range and,
   * once a category is chosen, its category is that one or lies below it.
   */
  function FilterProducts(ps: seq<Product>, cats: seq<Category>, f: Filters, ghost rank: string -> nat): (r: seq<Product>)
    requires Truthy(f.category) ==> Ranked(cats, rank)
    ensures forall x :: x in r <==>
      x in ps && InPriceRange(x, f.minPrice, f.maxPrice)
      && (Truthy(f.category) ==> DescendsFrom(cats, x.categoryId, f.category.value))
    ensures multiset(r) <= multiset(ps)
  {
    if Truthy(f.category) then
      SubtreeMembers(cats, f.category.value, rank);
      Filter(ps, Keeps(f, Subtree(cats, f.category.value, rank)))
    else
      Filter(ps, Keeps(f, []))
  }

  /** With no category chosen, only the price range matters. */
  lemma NoCategoryFiltersByPriceOnly(ps: seq<Product>, cats: seq<Category>, f: Filters, rank: string -> nat)
    requires !Truthy(f.category)
    ensures forall x :: x in FilterProducts(ps, cats, f, rank) <==> x in ps && InPriceRange(x, f.minPrice, f.maxPrice)
  {
  }

  /** The products in `ps` whose category is `c` itself are kept whenever their price is in range. */
  lemma OwnCategoryKept(ps: seq<Product>, cats: seq<Category>, f: Filters, rank: string -> nat, x: Product)
    requires Truthy(f.category) && Ranked(cats, rank)
    requires x in ps && x.categoryId == f.category.value && InPriceRange(x, f.minPrice, f.maxPrice)
    ensures x in FilterProducts(ps, cats, f, rank)
  {
    assert Chain(cats, [x.categoryId]);
  }

  /**
   * The range starts at 0..2000 and the slider, whose top is 2000, only sets
   * the upper bound; so under any range the page can reach, no product dearer
   * than 2000 VND is kept, whatever category is chosen.
   */
  lemma SliderHidesDearerProducts(ps: seq<Product>, cats: seq<Category>, f: Filters, rank: string -> nat)
    requires Truthy(f.category) ==> Ranked(cats, rank)
    requires f.maxPrice <= 2000
    ensures forall x :: x in FilterProducts(ps, cats, f, rank) ==> x.price <= 2000
    ensures forall x :: x in ps && x.price > 2000 ==> x !in FilterProducts(ps, cats, f, rank)
  {
  }

  /** The sorted list the page shows, before pagination. */
  function Listing(ps: seq<Product>, cats: seq<Category>, f: Filters, mode: string, ghost rank: string -> nat): (r: seq<Product>)
    requires Truthy(f.category) ==> Ranked(cats, rank)
    ensures |r| == |FilterProducts(ps, cats, f, rank)|
  {
    SortProducts(FilterProducts(ps, cats, f, rank), mode)
  }

  /** `categories.find(cat => cat.slug === slug)?._id`. */
  function IdOfSlug(cats: seq<Category>, slug: string): (id: Option<string>)
    ensures id.None? <==> forall c :: c in cats ==> c.slug != slug
    ensures id.Some? ==> exists c :: c in cats && c.slug == slug && c.id == id.value
  {
    if cats == [] then None
    else if cats[0].slug == slug then Some(cats[0].id)
    else
      assert forall c :: c in cats ==> c == cats[0] || c in cats[1..];
      IdOfSlug(cats[1..], slug)
  }

  /** The sub-categories shown in the sidebar: those whose parent is the current category. */
  function SubcategoriesOf(cats: seq<Category>, id: Option<string>): (r: seq<Category>)
    ensures forall c :: c in r <==> c in cats && id == Some(c.parentId)
  {
    if id.None? then []
    else
      ChildrenMembers(cats, id.value);
      Children(cats, id.value)
  }

  class CategoryListing {
    var products: seq<Product>
    var categories: seq<Category>
    var newProducts: seq<Product>
    var subcategories: Option<seq<Category>>
    var loading: bool
    var filters: Filters
    var itemsPerPage: nat
    var sortBy: string
    var currentPage: int

    /** The page size is positive and the current page is at least 1. */
    predicate Valid()
      reads this
    {
      itemsPerPage >= 1 && currentPage >= 1
    }

    constructor ()
      ensures Valid()
      ensures products == [] && categories == [] && newProducts == [] && subcategories.None? && loading
      ensures filters == InitialFilters && itemsPerPage == 6 && sortBy == "featured" && currentPage == 1
    {
      products := [];
      categories := [];
      newProducts := [];
      subcategories := None;
      loading := true;
      filters := InitialFilters;
      itemsPerPage := 6;
      sortBy := "featured";
      currentPage := 1;
    }

    /** What the page lists for the current state, before pagination. */
    function Shown(ghost rank: string -> nat): seq<Product>
      reads this
      requires Truthy(filters.category) ==> Ranked(categories, rank)
    {
      Listing(products, categories, filters, sortBy, rank)
    }

    /** The number of pages for the current state. */
    function PageCount(ghost rank: string -> nat): nat
      reads this
      requires Valid() && (Truthy(filters.category) ==> Ranked(categories, rank))
    {
      TotalPages(|Shown(rank)|, itemsPerPage)
    }

    /**
     * The fetch for a slug. A throw changes nothing but the loading flag.
     * Otherwise products (or `[]`), categories (or `[]`) and the first three
     * products are stored; then, when the category list exists, the category
     * filter becomes the id of the slug's category (absent when none has that
     * slug) and the sidebar lists its children. The page number is kept.
     */
    method Fetch(slug: string, reply: FetchReply)
      requires Valid()
      modifies this
      ensures Valid() && !loading
      ensures itemsPerPage == old(itemsPerPage) && sortBy == old(sortBy) && currentPage == old(currentPage)
      ensures reply.FetchThrew? ==>
        products == old(products) && categories == old(categories)
        && newProducts == old(newProducts) && filters == old(filters) && subcategories == old(subcategories)
      ensures reply.Fetched? ==>
        products == reply.products.GetOr([]) && categories == reply.categories.GetOr([])
        && newProducts == Take(reply.products.GetOr([]), 3)
      ensures reply.Fetched? && reply.categories.None? ==> filters == old(filters) && subcategories == old(subcategories)
      ensures reply.Fetched? && reply.categories.Some? ==>
        filters == old(filters).(category := IdOfSlug(reply.categories.value, slug))
        && subcategories == Some(SubcategoriesOf(reply.categories.value, IdOfSlug(reply.categories.value, slug)))
    {
      loading := true;
      if reply.Fetched? {
        products := reply.products.GetOr([]);
        categories := reply.categories.GetOr([]);
        newProducts := Take(reply.products.GetOr([]), 3);
        if reply.categories.Some? {
          var id := IdOfSlug(reply.categories.value, slug);
          filters := filters.(category := id);
          subcategories := Some(SubcategoriesOf(reply.categories.value, id));
        }
      }
      loading := false;
    }

    /** A non-empty `?category=` query parameter replaces the category filter. */
    method QueryCategory(param: Option<string>)
      modifies this
      ensures Truthy(param) ==> filters == old(filters).(category := param)
      ensures !Truthy(param) ==> filters == old(filters)
      ensures currentPage == old(currentPage) && itemsPerPage == old(itemsPerPage)
      ensures products == old(products) && categories == old(categories) && sortBy == old(sortBy)
    {
      if Truthy(param) {
        filters := filters.(category := param);
      }
    }

    /** `handlePriceRangeChange`: the range changes and the page number is kept. */
    method PriceRangeChange(min: int, max: int)
      modifies this
      ensures filters == old(filters).(minPrice := min, maxPrice := max)
      ensures currentPage == old(currentPage) && itemsPerPage == old(itemsPerPage)
      ensures products == old(products) && categories == old(categories) && sortBy == old(sortBy)
    {
      filters := filters.(minPrice := min, maxPrice := max);
    }

    /** `handleCategoryClick`: the category changes and the listing goes back to page 1. */
    method CategoryClick(id: string)
      requires Valid()
      modifies this
      ensures Valid()
      ensures filters == old(filters).(category := Some(id)) && currentPage == 1
      ensures itemsPerPage == old(itemsPerPage)
      ensures products == old(products) && categories == old(categories) && sortBy == old(sortBy)
    {
      filters := filters.(category := Some(id));
      currentPage := 1;
    }

    /** The items-per-page select: the new size, and back to page 1. */
    method ItemsPerPageChange(k: nat)
      requires Valid() && k >= 1
      modifies this
      ensures Valid()
      ensures itemsPerPage == k && currentPage == 1
      ensures filters == old(filters) && sortBy == old(sortBy)
      ensures products == old(products) && categories == old(categories)
    {
      itemsPerPage := k;
      currentPage := 1;
    }

    /** The sort select. */
    method SortChange(mode: string)
      modifies this
      ensures sortBy == mode
      ensures filters == old(filters) && currentPage == old(currentPage) && itemsPerPage == old(itemsPerPage)
      ensures products == old(products) && categories == old(categories)
    {
      sortBy := mode;
    }

    /** Prev: one page back, never below page 1. */
    method Prev()
      requires Valid()
      modifies this
      ensures Valid()
      ensures currentPage == Max(old(currentPage) - 1, 1)
      ensures filters == old(filters) && sortBy == old(sortBy) && itemsPerPage == old(itemsPerPage)
      ensures products == old(products) && categories == old(categories)
    {
      currentPage := Max(currentPage - 1, 1);
    }

    /**
     * Next: one page on, never past the last page. The button exists only
     * while there is more than one page.
     */
    method Next(ghost rank: string -> nat)
      requires Valid() && (Truthy(filters.category) ==> Ranked(categories, rank))
      requires PageCount(rank) > 1
      modifies this
      ensures Valid()
      ensures currentPage == Min(old(currentPage) + 1, old(PageCount(rank)))
      ensures 2 <= currentPage <= old(PageCount(rank))
      ensures filters == old(filters) && sortBy == old(sortBy) && itemsPerPage == old(itemsPerPage)
      ensures products == old(products) && categories == old(categories)
    {
      var last := PageCount(rank);
      currentPage := Min(currentPage + 1, last);
    }

    /** A numbered page button: page `i`, one of 1 to the page count. */
    method GoToPage(i: int, ghost rank: string -> nat)
      requires Valid() && (Truthy(filters.category) ==> Ranked(categories, rank))
      requires 1 <= i <= PageCount(rank)
      modifies this
      ensures Valid() && currentPage == i
      ensures filters == old(filters) && sortBy == old(sortBy) && itemsPerPage == old(itemsPerPage)
      ensures products == old(products) && categories == old(categories)
    {
      currentPage := i;
    }
  }
}
