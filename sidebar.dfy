/**
 * The admin sidebar: the menu, which entry is highlighted for the current
 * path, and the expanded groups, an object from group index to a flag whose
 * missing entries read as collapsed.
 */
module Sidebar {
  import opened Common

  datatype Child = Child(title: string, path: string)

  /** A top-level entry: a link (matched exactly or as a prefix) or a group of links. */
  datatype MenuItem = Link(title: string, path: string, exact: bool) | Group(title: string, children: seq<Child>)

  /** The menu as the sidebar declares it. */
  const Menu: seq<MenuItem> := [
    Link("Dashboard", "/admin", true),
    Group("Sản phẩm", [
      Child("Danh sách sản phẩm", "/admin/products"),
      Child("Thêm sản phẩm", "/admin/products/create"),
      Child("Danh mục", "/admin/categories")]),
    Group("Đơn hàng", [
      Child("Danh sách đơn hàng", "/admin/orders"),
      Child("Đơn hàng chờ xử lý", "/admin/orders/pending"),
      Child("Đơn hàng đã giao", "/admin/orders/delivered")]),
    Group("Khách hàng", [
      Child("Danh sách khách hàng", "/admin/customers"),
      Child("Khách hàng VIP", "/admin/customers/vip")]),
    Group("Báo cáo", [
      Child("Doanh thu", "/admin/reports/revenue"),
      Child("Sản phẩm bán chạy", "/admin/reports/bestsellers"),
      Child("Thống kê khách hàng", "/admin/reports/customers")]),
    Group("Cài đặt", [
      Child("Cài đặt chung", "/admin/settings/general"),
      Child("Thanh toán", "/admin/settings/payment"),
      Child("Giao hàng", "/admin/settings/shipping")])
  ]

  // ---------------------------------------------------------------------------
  // Highlighting
  // ---------------------------------------------------------------------------

  /**
   * `isActive(path, exact)`: an exact entry is active only on its own path;
   * any other is active on every path it prefixes.
   */
  function IsActive(pathname: string, path: string, exact: bool): (b: bool)
    ensures b ==> |path| <= |pathname| && pathname[..|path|] == path
    ensures exact ==> (b <==> pathname == path)
  {
    if exact then pathname == path else StartsWith(pathname, path)
  }

  /** An entry active when matched exactly is also active when matched as a prefix. */
  lemma ExactImpliesPrefix(pathname: string, path: string)
    ensures IsActive(pathname, path, true) ==> IsActive(pathname, path, false)
  {
    if pathname == path {
      assert pathname[..|path|] == path;
    }
  }

  /** `children.some(child => isActive(child.path))`. */
  function HasActiveChild(pathname: string, children: seq<Child>): (b: bool)
    ensures b <==> exists k :: 0 <= k < |children| && IsActive(pathname, children[k].path, false)
  {
    if children == [] then false
    else IsActive(pathname, children[0].path, false) || HasActiveChild(pathname, children[1..])
  }

  /** Whether an entry is drawn highlighted: a link by its own path, a group when one of its links is active. */
  predicate ItemActive(pathname: string, item: MenuItem) {
    match item
    case Link(_, path, exact) => IsActive(pathname, path, exact)
    case Group(_, children) => HasActiveChild(pathname, children)
  }

  /**
   * The dashboard is matched exactly: it is highlighted on `/admin` alone,
   * not on the other admin paths although `/admin` prefixes them all.
   */
  lemma DashboardOnlyOnItsOwnPath(pathname: string)
    ensures ItemActive(pathname, Menu[0]) <==> pathname == "/admin"
    ensures StartsWith(pathname, "/admin") && pathname != "/admin" ==> !ItemActive(pathname, Menu[0])
  {
  }

  /** The two characters after `/admin/` of each group's links: products and categories, orders, customers, reports, settings. */
  function GroupTags(i: int): set<string> {
    if i == 1 then {"pr", "ca"}
    else if i == 2 then {"or"}
    else if i == 3 then {"cu"}
    else if i == 4 then {"re"}
    else if i == 5 then {"se"}
    else {}
  }

  /** Every link of group `i` is longer than `/admin/` plus two characters, and those two are one of the group's tags. */
  lemma ChildTag(i: int, k: int)
    requires 1 <= i < |Menu| && Menu[i].Group? && 0 <= k < |Menu[i].children|
    ensures |Menu[i].children[k].path| >= 9 && Menu[i].children[k].path[7..9] in GroupTags(i)
  {
    var p := Menu[i].children[k].path;
    TagOf(p);
  }

  /** The two characters after `/admin/` of an admin path. */
  lemma TagOf(p: string)
    requires |p| >= 9
    ensures p[7..9] == [p[7], p[8]]
  {
  }

  /** A highlighted group has a link that prefixes the path, so the path carries one of the group's tags. */
  lemma ActiveGroupTag(pathname: string, i: int)
    requires 1 <= i < |Menu| && ItemActive(pathname, Menu[i])
    ensures |pathname| >= 9 && pathname[7..9] in GroupTags(i)
  {
    var children := Menu[i].children;
    var k :| 0 <= k < |children| && IsActive(pathname, children[k].path, false);
    ChildTag(i, k);
    assert pathname[7..9] == pathname[..|children[k].path|][7..9];
  }

  /**
   * Whatever the path, at most one top-level entry is highlighted: the
   * dashboard only on `/admin`, which is too short for any link of a group,
   * and no two groups share a link tag.
   */
  lemma AtMostOneEntryActive(pathname: string, i: int, j: int)
    requires 0 <= i < j < |Menu|
    ensures !(ItemActive(pathname, Menu[i]) && ItemActive(pathname, Menu[j]))
  {
    if ItemActive(pathname, Menu[i]) && ItemActive(pathname, Menu[j]) {
      ActiveGroupTag(pathname, j);
      if i != 0 {
        ActiveGroupTag(pathname, i);
      }
    }
  }

  // ---------------------------------------------------------------------------
  // Expanded groups
  // ---------------------------------------------------------------------------

  /** `expandedItems[index]`: a missing entry is `undefined`, which is falsy. */
  predicate Expanded(m: map<int, bool>, index: int) {
    index in m && m[index]
  }

  /** `{...prev, [index]: !prev[index]}`: that group flips, every other keeps its state. */
  function Toggled(m: map<int, bool>, index: int): (r: map<int, bool>)
    ensures Expanded(r, index) == !Expanded(m, index)
    ensures forall j :: j != index ==> Expanded(r, j) == Expanded(m, j)
    ensures r.Keys == m.Keys + {index}
  {
    m[index := !Expanded(m, index)]
  }

  /**
   * Toggling a group twice brings every group back to the state it had; the
   * object itself is restored when it already had an entry for that group
   * (otherwise it now holds `false` there, which reads the same).
   */
  lemma ToggleTwiceRestores(m: map<int, bool>, index: int)
    ensures forall j :: Expanded(Toggled(Toggled(m, index), index), j) == Expanded(m, j)
    ensures index in m ==> Toggled(Toggled(m, index), index) == m
  {
  }

  class SidebarState {
    var expandedItems: map<int, bool>

    /** `useState({})`: every group starts collapsed. */
    constructor ()
      ensures expandedItems == map[]
      ensures forall j :: !Expanded(expandedItems, j)
    {
      expandedItems := map[];
    }

    /** `toggleExpanded(index)`: only that group changes, and it flips. */
    method ToggleExpanded(index: int)
      modifies this
      ensures expandedItems == Toggled(old(expandedItems), index)
      ensures Expanded(expandedItems, index) == !Expanded(old(expandedItems), index)
      ensures forall j :: j != index ==> Expanded(expandedItems, j) == Expanded(old(expandedItems), j)
    {
      expandedItems := Toggled(expandedItems, index);
    }
  }
}
