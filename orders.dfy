/**
 * The order-history page: the status tabs and their counts, the per-order
 * total, the three-product preview, and the demo order it can create.
 * Labels, styles and line amounts are those of the detail page.
 */
module Orders {
  import opened Common
  import OC = OrderController
  import opened OrderDetail

  /**
   * `calculateTotal(products)` of the list page, times 100: 0 when the
   * products are missing or not an array.
   */
  function CardTotal100(products: Option<seq<OC.OrderLine>>): (t: int)
    ensures products.None? ==> t == 0
  {
    if products.None? then 0 else LinesAmount100(products.value)
  }

  /** The list page and the detail page show the same total for the same order. */
  lemma SameTotalAsDetail(o: OrderView)
    ensures CardTotal100(o.products) == OrderTotal100(Some(o))
  {
  }

  /** The tab predicate: `'all'` keeps everything, any other tab keeps exactly its status. */
  function InTab(tab: string): OrderView -> bool {
    (o: OrderView) => tab == "all" || o.status == tab
  }

  /** `filteredOrders`. */
  function FilterOrders(orders: seq<OrderView>, tab: string): (r: seq<OrderView>)
    ensures tab != "all" ==> forall o :: o in r <==> o in orders && o.status == tab
    ensures |r| <= |orders|
  {
    Filter(orders, InTab(tab))
  }

  /** The `'all'` tab shows every order, in the order received. */
  lemma AllTabKeepsEverything(orders: seq<OrderView>)
    ensures FilterOrders(orders, "all") == orders
  {
    FilterAll(orders, InTab("all"));
  }

  /** A status tab's number: `orders.filter(o => o.status === s).length`. */
  function TabCount(orders: seq<OrderView>, s: string): (n: nat)
    ensures n <= |orders|
  {
    Count(orders, (o: OrderView) => o.status == s)
  }

  /**
   * Each status tab's number is the number of orders its list shows, and the
   * `'all'` tab's number, `orders.length`, is the length of its list.
   */
  lemma {:induction false} TabCountMatchesList(orders: seq<OrderView>, s: string)
    requires s != "all"
    ensures TabCount(orders, s) == |FilterOrders(orders, s)|
    ensures |FilterOrders(orders, "all")| == |orders|
  {
    AllTabKeepsEverything(orders);
    if orders != [] {
      TabCountMatchesList(orders[1..], s);
    }
  }

  /** The three status tabs never count more orders than the `'all'` tab: no order is in two of them. */
  lemma {:induction false} TabCountsAtMostAll(orders: seq<OrderView>)
    ensures TabCount(orders, "pending") + TabCount(orders, "shipping") + TabCount(orders, "delivered") <= |orders|
  {
    if orders != [] {
      TabCountsAtMostAll(orders[1..]);
    }
  }

  /** `order.products?.slice(0, 3)`: the products previewed on a card. */
  function Preview(products: seq<OC.OrderLine>): (r: seq<OC.OrderLine>)
    ensures |r| == Min(3, |products|) && r == products[..|r|]
    ensures |products| <= 3 ==> r == products
  {
    Take(products, 3)
  }

  /** The "+n sản phẩm khác" note: present only beyond three products. */
  function MoreCount(products: seq<OC.OrderLine>): (n: Option<nat>)
    ensures n.Some? <==> |products| > 3
  {
    if |products| > 3 then Some(|products| - 3) else None
  }

  /** The preview and the note together account for every product. */
  lemma PreviewAccountsForAll(products: seq<OC.OrderLine>)
    ensures |Preview(products)| + (if MoreCount(products).Some? then MoreCount(products).value else 0) == |products|
    ensures Preview(products) + products[|Preview(products)|..] == products
  {
  }

  /** What `getUserOrders` answered. */
  datatype ListReply = ListReplied(code: int, orders: Option<seq<OrderView>>) | ListThrew

  /** `fetchOrders`: the answered list on code 200 (`[]` when absent), and `[]` on any failure. */
  function OrdersAfterFetch(reply: ListReply): (r: seq<OrderView>)
    ensures reply.ListReplied? && reply.code == 200 && reply.orders.Some? ==> r == reply.orders.value
    ensures !(reply.ListReplied? && reply.code == 200 && reply.orders.Some?) ==> r == []
  {
    if reply.ListReplied? && reply.code == 200 && reply.orders.Some? then reply.orders.value else []
  }

  /** The demo order of `handleCreateTestOrder`: one shipping order of two items at 299000 VND, 10% off. */
  const TestOrder: OC.OrderRequest := OC.OrderRequest(
    Some("shipping"),
    Some(OC.UserInfoIn(Some("Nguyễn Văn A"), Some("0123456789"), Some("123 Đường ABC, Quận 1, TP.HCM"),
                       Some(OC.LocationIn("Point", Some([105.860000, 21.030000]))))),
    Some([OC.OrderLine("test123", Some(299000), Some(10), Some(2))]))

  /**
   * The backend accepts the demo order for any signed-in user, stores it as
   * shipping (so its map is drawn), and its total is 538200 VND.
   */
  lemma TestOrderAccepted(userId: Option<string>, now: int, id: string)
    requires Truthy(userId)
    ensures OC.RequestOk(userId, TestOrder)
    ensures OC.BuildOrder(userId, TestOrder, now).status == "shipping"
    ensures ShowsTrackingMap(FromStored(id, OC.BuildOrder(userId, TestOrder, now)))
    ensures CardTotal100(TestOrder.products) == 538200 * 100
  {
    var l := OC.OrderLine("test123", Some(299000), Some(10), Some(2));
    assert TestOrder.products.value == [l];
    assert LinesAmount100([l]) == LineAmount100(l) + LinesAmount100([l][1..]);
  }
}
