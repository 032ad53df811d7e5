/**
 * The order-detail page: how an order's total, status label and style are
 * derived, when it can be cancelled, when the tracking map is drawn, and
 * what loading and cancelling do to the page state.
 *
 * Amounts: a line costs `price * (1 - discount/100) * quantity` VND. The
 * model keeps `price * (100 - discount) * quantity`, exactly 100 times that
 * amount, so that no division is needed.
 */
module OrderDetail {
  import opened Common
  import OC = OrderController

  /** An order as the client receives it; pieces the JSON may lack are optional. */
  datatype OrderView = OrderView(
    id: string,
    status: string,
    products: Option<seq<OC.OrderLine>>,
    customerLocation: Option<seq<real>>)

  /** The client's view of a stored order. */
  function FromStored(id: string, o: OC.Order): (v: OrderView)
    ensures v.status == o.status && v.products == Some(o.products)
    ensures v.customerLocation == Some(o.userInfo.toadoa.coordinates)
  {
    OrderView(id, o.status, Some(o.products), Some(o.userInfo.toadoa.coordinates))
  }

  /** The five statuses the page has a label for. */
  predicate KnownStatus(s: string) {
    s == "pending" || s == "confirmed" || s == "shipping" || s == "delivered" || s == "cancelled"
  }

  /** `statusMap[status] || status`: the Vietnamese label, or the raw status. */
  function StatusText(s: string): (t: string)
    ensures !KnownStatus(s) ==> t == s
    ensures s == "pending" ==> t == "Chờ xử lý"
    ensures s == "confirmed" ==> t == "Đã xác nhận"
    ensures s == "shipping" ==> t == "Đang giao hàng"
    ensures s == "delivered" ==> t == "Đã giao hàng"
    ensures s == "cancelled" ==> t == "Đã hủy"
  {
    if s == "pending" then "Chờ xử lý"
    else if s == "confirmed" then "Đã xác nhận"
    else if s == "shipping" then "Đang giao hàng"
    else if s == "delivered" then "Đã giao hàng"
    else if s == "cancelled" then "Đã hủy"
    else s
  }

  /** The five known statuses get five different labels. */
  lemma StatusTextDistinct(a: string, b: string)
    requires KnownStatus(a) && KnownStatus(b) && a != b
    ensures StatusText(a) != StatusText(b)
  {
  }

  /** `classMap[status] || ''`. */
  function StatusClass(s: string): (c: string)
    ensures c != "" <==> KnownStatus(s)
    ensures c != "" ==> c == "status-" + s
  {
    if KnownStatus(s) then "status-" + s else ""
  }

  /** `x || 0` on a number that may be absent. */
  function OrZero(x: Option<int>): (r: int)
    ensures x.Some? ==> r == x.value
    ensures x.None? ==> r == 0
  {
    if x.Some? then x.value else 0
  }

  /** One summand of `calculateTotal`, times 100, with absent fields read as 0. */
  function LineAmount100(l: OC.OrderLine): int {
    OrZero(l.price) * (100 - OrZero(l.discountPercentage)) * OrZero(l.quantity)
  }

  /** The sum of the summands, times 100. */
  function LinesAmount100(ls: seq<OC.OrderLine>): int {
    Sum(ls, LineAmount100)
  }

  /** A line with a missing price or quantity adds nothing to the total. */
  lemma MissingFieldAddsNothing(l: OC.OrderLine)
    requires l.price.None? || l.quantity.None?
    ensures LineAmount100(l) == 0
  {
  }

  /**
   * With prices and quantities non-negative and discounts at most 100, the
   * total is non-negative and at most the undiscounted total.
   */
  lemma {:induction false} AmountBounds(ls: seq<OC.OrderLine>)
    requires forall l :: l in ls ==> OrZero(l.price) >= 0 && OrZero(l.quantity) >= 0
    requires forall l :: l in ls ==> 0 <= OrZero(l.discountPercentage) <= 100
    ensures 0 <= LinesAmount100(ls) <= 100 * Sum(ls, (l: OC.OrderLine) => OrZero(l.price) * OrZero(l.quantity))
  {
    if ls != [] {
      AmountBounds(ls[1..]);
      assert ls[0] in ls;
      LineBounds(OrZero(ls[0].price), OrZero(ls[0].discountPercentage), OrZero(ls[0].quantity));
    }
  }

  /** `p * (100 - d) * q` lies between 0 and `100 * p * q` for a discount in 0..100. */
  lemma LineBounds(p: int, d: int, q: int)
    requires p >= 0 && q >= 0 && 0 <= d <= 100
    ensures 0 <= p * (100 - d) * q <= 100 * (p * q)
  {
    assert p * (100 - d) * q == (100 - d) * (p * q);
    assert 0 <= 100 - d <= 100;
  }

  /**
   * `calculateTotal` of the detail page, times 100: 0 when there is no order
   * or the order has no product list.
   */
  function OrderTotal100(order: Option<OrderView>): (t: int)
    ensures order.None? || order.value.products.None? ==> t == 0
    ensures order.Some? && order.value.products.Some? ==> t == LinesAmount100(order.value.products.value)
  {
    if order.None? || order.value.products.None? then 0 else LinesAmount100(order.value.products.value)
  }

  /**
   * The line total the product list shows, times 100. It reads price and
   * quantity without a default, so a missing one gives NaN (`None`).
   */
  function DisplayedLineTotal100(l: OC.OrderLine): (r: Option<int>)
    ensures r.None? <==> l.price.None? || l.quantity.None?
  {
    if l.price.None? || l.quantity.None? then None
    else Some(l.price.value * (100 - OrZero(l.discountPercentage)) * l.quantity.value)
  }

  /** Each line total the page shows is that line's share of the order total. */
  lemma DisplayedLineIsSummand(l: OC.OrderLine)
    requires DisplayedLineTotal100(l).Some?
    ensures DisplayedLineTotal100(l).value == LineAmount100(l)
  {
  }

  /** `canCancelOrder`: an order that is pending or confirmed. */
  predicate CanCancel(order: Option<OrderView>) {
    order.Some? && (order.value.status == "pending" || order.value.status == "confirmed")
  }

  /** The tracking map is drawn for a shipping order that has customer coordinates. */
  predicate ShowsTrackingMap(order: OrderView) {
    order.status == "shipping" && order.customerLocation.Some?
  }

  /** Every stored order has coordinates, so for it the map depends on the status alone. */
  lemma StoredMapIffShipping(id: string, o: OC.Order)
    ensures ShowsTrackingMap(FromStored(id, o)) <==> o.status == "shipping"
  {
  }

  /** The simulated driver position drawn while an order is on its way. */
  const MockDriverLocation: seq<real> := [105.850000, 21.025000]

  /** What `getOrderDetail` answered: a code with an order (possibly `null`), or a throw. */
  datatype DetailReply = Replied(code: int, order: Option<OrderView>) | DetailThrew

  /** What `cancelOrder` answered: a code, or a throw. */
  datatype CancelReply = CancelCode(code: int) | CancelThrew

  class OrderDetailPage {
    var order: Option<OrderView>
    var loading: bool
    var cancelling: bool
    var driverLocation: Option<seq<real>>

    constructor ()
      ensures order.None? && loading && !cancelling && driverLocation.None?
    {
      order := None;
      loading := true;
      cancelling := false;
      driverLocation := None;
    }

    /**
     * `fetchOrderDetail`. Code 200 keeps the answered order and, for a
     * shipping one, places the driver. A `null` order with code 200 fails
     * when its status is read, so like another code or a throw it sends the
     * visitor back to the list. Loading always ends.
     */
    method FetchDetail(reply: DetailReply) returns (backToList: bool)
      modifies this
      ensures !loading && cancelling == old(cancelling)
      ensures backToList <==> !(reply.Replied? && reply.code == 200 && reply.order.Some?)
      ensures reply.Replied? && reply.code == 200 ==> order == reply.order
      ensures !(reply.Replied? && reply.code == 200) ==> order == old(order)
      ensures reply.Replied? && reply.code == 200 && reply.order.Some? && reply.order.value.status == "shipping"
              ==> driverLocation == Some(MockDriverLocation)
      ensures !(reply.Replied? && reply.code == 200 && reply.order.Some? && reply.order.value.status == "shipping")
              ==> driverLocation == old(driverLocation)
    {
      loading := true;
      backToList := true;
      if reply.Replied? && reply.code == 200 {
        order := reply.order;
        if reply.order.Some? {
          backToList := false;
          if reply.order.value.status == "shipping" {
            driverLocation := Some(MockDriverLocation);
          }
        }
      }
      loading := false;
    }

    /**
     * `handleCancelOrder`: nothing unless the visitor confirms; then, on code
     * 200, only the status changes, to "cancelled"; any other answer or a
     * throw leaves the order as it was.
     */
    method CancelOrder(confirmed: bool, reply: CancelReply)
      requires order.Some?
      modifies this
      ensures confirmed && reply == CancelCode(200) ==> order == Some(old(order).value.(status := "cancelled"))
      ensures !(confirmed && reply == CancelCode(200)) ==> order == old(order)
      ensures confirmed ==> !cancelling
      ensures !confirmed ==> cancelling == old(cancelling)
      ensures loading == old(loading) && driverLocation == old(driverLocation)
    {
      if !confirmed {
        return;
      }
      cancelling := true;
      if reply == CancelCode(200) {
        order := Some(order.value.(status := "cancelled"));
      }
      cancelling := false;
    }
  }

  /** A cancelled order can no longer be cancelled, and keeps its lines and total. */
  lemma CancelIsFinalOnPage(o: OrderView)
    ensures !CanCancel(Some(o.(status := "cancelled")))
    ensures OrderTotal100(Some(o.(status := "cancelled"))) == OrderTotal100(Some(o))
    ensures StatusText(o.(status := "cancelled").status) == "Đã hủy"
  {
  }
}
