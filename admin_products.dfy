/**
 * The admin product table: the search, category and status filters, the
 * status badge, deletion after a confirmation, and the status menu that
 * rewrites one product's status.
 */
module AdminProducts {
  import opened Common

  datatype AdminProduct = AdminProduct(
    id: int, name: string, category: string, price: int, stock: int, status: string, createdAt: string)

  /** The four products the page loads after its one-second timer. */
  const MockAdminProducts: seq<AdminProduct> := [
    AdminProduct(1, "iPhone 15 Pro", "Điện tử", 25000000, 45, "active", "2024-01-10"),
    AdminProduct(2, "Samsung Galaxy S24", "Điện tử", 22000000, 0, "out_of_stock", "2024-01-08"),
    AdminProduct(3, "Áo thun nam", "Thời trang", 299000, 120, "active", "2024-01-05"),
    AdminProduct(4, "Máy pha cà phê", "Gia dụng", 1500000, 25, "inactive", "2024-01-03")
  ]

  /** The text and style class of a status badge. */
  datatype Badge = Badge(text: string, cls: string)

  predicate KnownStatus(s: string) {
    s == "active" || s == "inactive" || s == "out_of_stock"
  }

  /** `getStatusBadge`: the three known statuses have their own badge; any other shows its raw text in the default style. */
  function StatusBadge(status: string): (b: Badge)
    ensures !KnownStatus(status) ==> b == Badge(status, "status-default")
    ensures status == "active" ==> b == Badge("Đang bán", "status-active")
    ensures status == "inactive" ==> b == Badge("Ngừng bán", "status-inactive")
    ensures status == "out_of_stock" ==> b == Badge("Hết hàng", "status-out-of-stock")
  {
    if status == "active" then Badge("Đang bán", "status-active")
    else if status == "inactive" then Badge("Ngừng bán", "status-inactive")
    else if status == "out_of_stock" then Badge("Hết hàng", "status-out-of-stock")
    else Badge(status, "status-default")
  }

  /** Only the fallback uses the default style, so a known status is never shown as unknown. */
  lemma DefaultStyleOnlyForUnknown(status: string)
    ensures StatusBadge(status).cls == "status-default" <==> !KnownStatus(status)
  {
  }

  /** The callback of `products.filter`; the search test has no emptiness guard, it relies on `includes("")`. */
  function Matches(term: string, category: string, status: string, lower: string -> string): AdminProduct -> bool {
    (p: AdminProduct) =>
      Includes(lower(p.name), lower(term))
      && (category == "" || category == "Tất cả" || p.category == category)
      && (status == "" || p.status == status)
  }

  /** `filteredProducts`: the products passing all three tests, in list order; never more than the whole list. */
  function FilterProducts(ps: seq<AdminProduct>, term: string, category: string, status: string,
                          lower: string -> string): (r: seq<AdminProduct>)
    ensures forall p :: p in r <==>
      p in ps && Includes(lower(p.name), lower(term))
      && (category == "" || category == "Tất cả" || p.category == category)
      && (status == "" || p.status == status)
    ensures |r| <= |ps|
  {
    Filter(ps, Matches(term, category, status, lower))
  }

  /** The empty string is contained in every string. */
  lemma IncludesEmpty(s: string)
    ensures Includes(s, "")
  {
    assert OccursAt(s, "", 0);
  }

  /**
   * With an empty search term (whose lower-case form is empty) and both
   * selects on "all", the table shows the whole list.
   */
  lemma NoFiltersShowAll(ps: seq<AdminProduct>, lower: string -> string)
    requires lower("") == ""
    ensures FilterProducts(ps, "", "", "", lower) == ps
  {
    forall p | p in ps ensures Matches("", "", "", lower)(p) {
      IncludesEmpty(lower(p.name));
    }
    FilterAll(ps, Matches("", "", "", lower));
  }

  /** `p => p.id !== productId`. */
  function OtherId(id: int): AdminProduct -> bool {
    (p: AdminProduct) => p.id != id
  }

  /** `products.filter(p => p.id !== productId)`: every product with that id dropped, the rest in order. */
  function WithoutId(ps: seq<AdminProduct>, id: int): (r: seq<AdminProduct>)
    ensures forall p :: p in r <==> p in ps && p.id != id
    ensures multiset(r) <= multiset(ps)
  {
    Filter(ps, OtherId(id))
  }

  /** Deleting an id that is not in the list leaves the list as it was. */
  lemma DeleteAbsentIdChangesNothing(ps: seq<AdminProduct>, id: int)
    requires forall p :: p in ps ==> p.id != id
    ensures WithoutId(ps, id) == ps
  {
    FilterAll(ps, OtherId(id));
  }

  /** `products.map(p => p.id === productId ? {...p, status: newStatus} : p)`. */
  function WithStatus(ps: seq<AdminProduct>, id: int, status: string): (r: seq<AdminProduct>)
    ensures |r| == |ps|
    ensures forall i :: 0 <= i < |ps| && ps[i].id != id ==> r[i] == ps[i]
    ensures forall i :: 0 <= i < |ps| && ps[i].id == id ==> r[i] == ps[i].(status := status)
  {
    seq(|ps|, i requires 0 <= i < |ps| => if ps[i].id == id then ps[i].(status := status) else ps[i])
  }

  /**
   * A status change keeps every product's id and every field but the
   * status, and afterwards each product with that id has the new status.
   */
  lemma StatusChangeTouchesOnlyStatus(ps: seq<AdminProduct>, id: int, status: string)
    ensures var r := WithStatus(ps, id, status);
      forall i :: 0 <= i < |ps| ==> r[i].(status := ps[i].status) == ps[i]
    ensures var r := WithStatus(ps, id, status);
      forall i :: 0 <= i < |ps| ==> (r[i].id == id ==> r[i].status == status)
  {
  }

  /** Applying the same status change twice is the same as applying it once. */
  lemma StatusChangeIdempotent(ps: seq<AdminProduct>, id: int, status: string)
    ensures WithStatus(WithStatus(ps, id, status), id, status) == WithStatus(ps, id, status)
  {
  }

  /** Deleting after a status change of the same id removes the same products as deleting straight away. */
  lemma {:induction false} DeleteAfterStatusChange(ps: seq<AdminProduct>, id: int, status: string)
    ensures WithoutId(WithStatus(ps, id, status), id) == WithoutId(ps, id)
  {
    if ps != [] {
      var r := WithStatus(ps, id, status);
      assert r[1..] == WithStatus(ps[1..], id, status);
      DeleteAfterStatusChange(ps[1..], id, status);
    }
  }

  class ProductsManagementPage {
    var products: seq<AdminProduct>
    var loading: bool
    var searchTerm: string
    var filterCategory: string
    var filterStatus: string

    constructor ()
      ensures products == [] && loading && searchTerm == "" && filterCategory == "" && filterStatus == ""
    {
      products := [];
      loading := true;
      searchTerm := "";
      filterCategory := "";
      filterStatus := "";
    }

    /** The timer firing: the mock products are stored and loading ends. */
    method Load()
      modifies this
      ensures products == MockAdminProducts && !loading
      ensures searchTerm == old(searchTerm) && filterCategory == old(filterCategory) && filterStatus == old(filterStatus)
    {
      products := MockAdminProducts;
      loading := false;
    }

    /** "Hiển thị n / m sản phẩm": the shown count and the total count. */
    function Counts(lower: string -> string): (c: (nat, nat))
      reads this
      ensures c.0 <= c.1 && c.1 == |products|
    {
      (|FilterProducts(products, searchTerm, filterCategory, filterStatus, lower)|, |products|)
    }

    /** `handleDelete`: after a confirmation, every product with that id is gone; without one, nothing changes. */
    method Delete(id: int, confirmed: bool)
      modifies this
      ensures confirmed ==> products == WithoutId(old(products), id)
      ensures !confirmed ==> products == old(products)
      ensures searchTerm == old(searchTerm) && filterCategory == old(filterCategory) && filterStatus == old(filterStatus)
      ensures loading == old(loading)
    {
      if confirmed {
        products := WithoutId(products, id);
      }
    }

    /** `handleStatusChange`: only the status of the products with that id changes. */
    method StatusChange(id: int, status: string)
      modifies this
      ensures products == WithStatus(old(products), id, status)
      ensures searchTerm == old(searchTerm) && filterCategory == old(filterCategory) && filterStatus == old(filterStatus)
      ensures loading == old(loading)
    {
      products := WithStatus(products, id, status);
    }

    method SearchChange(term: string)
      modifies this
      ensures searchTerm == term
      ensures products == old(products) && filterCategory == old(filterCategory) && filterStatus == old(filterStatus)
    {
      searchTerm := term;
    }

    method CategoryChange(category: string)
      modifies this
      ensures filterCategory == category
      ensures products == old(products) && searchTerm == old(searchTerm) && filterStatus == old(filterStatus)
    {
      filterCategory := category;
    }

    method StatusFilterChange(status: string)
      modifies this
      ensures filterStatus == status
      ensures products == old(products) && searchTerm == old(searchTerm) && filterCategory == old(filterCategory)
    {
      filterStatus := status;
    }
  }
}
