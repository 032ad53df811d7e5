/**
 * The shopping-cart page: loading the cart and pricing its lines, the
 * selection check boxes, quantity changes, removal, the selected subtotal,
 * the header's item counter and the hand-off to the order page.
 * Prices are whole VND, so every amount here is an exact integer.
 */
module Cart {
  import opened Common

  /** One cart line: `product_id`, `quantity`, `productInfo.price`, `productInfo.discountPercentage` and the line total the page computes. */
  datatype CartLine = CartLine(
    productId: string,
    quantity: int,
    price: int,
    discountPercentage: Option<int>,
    totalPrice: int)

  /** What the page thinks a line should cost: unit price times quantity, with no discount applied. */
  function LineAmount(l: CartLine): int {
    l.price * l.quantity
  }

  /** Every line carries the total the page computes for it. */
  predicate Priced(lines: seq<CartLine>) {
    forall i :: 0 <= i < |lines| ==> lines[i].totalPrice == LineAmount(lines[i])
  }

  function Quantity(l: CartLine): int { l.quantity }
  function LineTotal(l: CartLine): int { l.totalPrice }

  /** The lines of product `id`, and the lines of every other product. */
  function Is(id: string): CartLine -> bool { (l: CartLine) => l.productId == id }
  function IsNot(id: string): CartLine -> bool { (l: CartLine) => l.productId != id }

  /** The number shown on the header's cart icon: the sum of the quantities. */
  function TotalQuantity(lines: seq<CartLine>): int {
    Sum(lines, Quantity)
  }

  /** `reduce((sum, item) => sum + item.totalPrice, 0)`. */
  function TotalOfLines(lines: seq<CartLine>): int {
    Sum(lines, LineTotal)
  }

  /** The cart as the page holds it after loading: every line re-priced. */
  function WithTotals(lines: seq<CartLine>): (r: seq<CartLine>)
    ensures |r| == |lines|
    ensures forall i :: 0 <= i < |r| ==> r[i] == lines[i].(totalPrice := LineAmount(lines[i]))
  {
    seq(|lines|, i requires 0 <= i < |lines| => lines[i].(totalPrice := LineAmount(lines[i])))
  }

  /** Re-pricing yields a priced cart, leaves a priced cart alone, and keeps ids, quantities and prices. */
  lemma WithTotalsPriced(lines: seq<CartLine>)
    ensures Priced(WithTotals(lines))
    ensures Priced(lines) ==> WithTotals(lines) == lines
    ensures TotalQuantity(WithTotals(lines)) == TotalQuantity(lines)
  {
    SumFieldsAgree(WithTotals(lines), lines);
  }

  /** Two carts with the same ids and quantities line by line have the same header count. */
  lemma {:induction false} SumFieldsAgree(a: seq<CartLine>, b: seq<CartLine>)
    requires |a| == |b|
    requires forall i :: 0 <= i < |a| ==> a[i].quantity == b[i].quantity
    ensures TotalQuantity(a) == TotalQuantity(b)
  {
    if a != [] {
      SumFieldsAgree(a[1..], b[1..]);
    }
  }

  /**
   * The loop of `fetchCart` that writes `item.totalPrice` into every line of
   * the loaded cart, in place.
   */
  method ComputeLineTotals(a: array<CartLine>)
    modifies a
    ensures a[..] == WithTotals(old(a[..]))
    ensures Priced(a[..])
  {
    ghost var before := a[..];
    var i := 0;
    while i < a.Length
      invariant 0 <= i <= a.Length
      invariant forall k :: 0 <= k < i ==> a[k] == before[k].(totalPrice := LineAmount(before[k]))
      invariant forall k :: i <= k < a.Length ==> a[k] == before[k]
    {
      a[i] := a[i].(totalPrice := a[i].price * a[i].quantity);
      i := i + 1;
    }
    WithTotalsPriced(before);
  }

  /** `products.map(item => item.product_id === id ? {...item, quantity: q, totalPrice: price * q} : item)`. */
  function SetQuantity(lines: seq<CartLine>, id: string, q: int): (r: seq<CartLine>)
    ensures |r| == |lines|
    ensures forall i :: 0 <= i < |r| ==> r[i].productId == lines[i].productId
    ensures forall i :: 0 <= i < |r| && lines[i].productId != id ==> r[i] == lines[i]
    ensures forall i :: 0 <= i < |r| && lines[i].productId == id ==>
              r[i] == lines[i].(quantity := q, totalPrice := lines[i].price * q)
  {
    if lines == [] then []
    else
      var l := lines[0];
      var rest := SetQuantity(lines[1..], id, q);
      var r := [if l.productId == id then l.(quantity := q, totalPrice := l.price * q) else l] + rest;
      assert forall i :: 1 <= i < |r| ==> r[i] == rest[i - 1] && lines[i] == lines[1..][i - 1];
      r
  }

  /** A quantity change keeps every line priced and leaves the other products' lines as they were. */
  lemma SetQuantityPriced(lines: seq<CartLine>, id: string, q: int)
    requires Priced(lines)
    ensures Priced(SetQuantity(lines, id, q))
    ensures forall i :: 0 <= i < |lines| && lines[i].productId != id ==> SetQuantity(lines, id, q)[i] == lines[i]
    ensures forall i :: 0 <= i < |lines| && lines[i].productId == id ==>
              SetQuantity(lines, id, q)[i] == lines[i].(quantity := q, totalPrice := LineAmount(lines[i].(quantity := q)))
  {
    var r := SetQuantity(lines, id, q);
    forall i | 0 <= i < |r| ensures r[i].totalPrice == LineAmount(r[i]) {
      assert lines[i].totalPrice == LineAmount(lines[i]);
    }
  }


  /**
   * The header count after a quantity change: the other products' quantities
   * plus `q` for each line of the changed product.
   */
  lemma {:induction false} SetQuantityCount(lines: seq<CartLine>, id: string, q: int)
    ensures TotalQuantity(SetQuantity(lines, id, q))
         == TotalQuantity(Without(lines, id)) + q * Count(lines, Is(id))
  {
    if lines != [] {
      SetQuantityCount(lines[1..], id, q);
      SetQuantityHead(lines, id, q);
      WithoutHead(lines, id);
      var c := Count(lines[1..], Is(id));
      if lines[0].productId == id {
        assert Count(lines, Is(id)) == 1 + c;
        MulSucc(q, c);
      } else {
        assert Count(lines, Is(id)) == c;
      }
    }
  }

  /** The header count after a quantity change, first line apart. */
  lemma SetQuantityHead(lines: seq<CartLine>, id: string, q: int)
    requires lines != []
    ensures TotalQuantity(SetQuantity(lines, id, q))
         == (if lines[0].productId == id then q else lines[0].quantity) + TotalQuantity(SetQuantity(lines[1..], id, q))
  {
    var r := SetQuantity(lines, id, q);
    assert r[1..] == SetQuantity(lines[1..], id, q);
  }

  /** The header count without a product, first line apart. */
  lemma WithoutHead(lines: seq<CartLine>, id: string)
    requires lines != []
    ensures TotalQuantity(Without(lines, id))
         == (if lines[0].productId == id then 0 else lines[0].quantity) + TotalQuantity(Without(lines[1..], id))
  {
    var rest := Without(lines[1..], id);
    if lines[0].productId != id {
      assert Without(lines, id) == [lines[0]] + rest;
      assert ([lines[0]] + rest)[1..] == rest;
    } else {
      assert Without(lines, id) == rest;
    }
  }

  /** `products.filter(item => item.product_id !== id)`. */
  function Without(lines: seq<CartLine>, id: string): (r: seq<CartLine>)
    ensures forall l :: l in r <==> l in lines && l.productId != id
  {
    Filter(lines, IsNot(id))
  }

  /** Removing a product subtracts its lines' quantities from the header count and their totals from the cart total. */
  lemma RemovalSubtracts(lines: seq<CartLine>, id: string)
    ensures TotalQuantity(Without(lines, id)) == TotalQuantity(lines) - TotalQuantity(Filter(lines, Is(id)))
    ensures TotalOfLines(Without(lines, id)) == TotalOfLines(lines) - TotalOfLines(Filter(lines, Is(id)))
  {
    SumPartition(lines, Quantity, Is(id), IsNot(id));
    SumPartition(lines, LineTotal, Is(id), IsNot(id));
  }

  /** Dropping a product's lines keeps the remaining lines priced. */
  lemma WithoutPriced(lines: seq<CartLine>, id: string)
    requires Priced(lines)
    ensures Priced(Without(lines, id))
  {
    var kept := Without(lines, id);
    forall i | 0 <= i < |kept| ensures kept[i].totalPrice == LineAmount(kept[i]) {
      assert kept[i] in lines;
    }
  }

  /** Two predicates that agree everywhere filter alike. */
  lemma {:induction false} FilterSame(s: seq<CartLine>, p: CartLine -> bool, q: CartLine -> bool)
    requires forall x :: p(x) == q(x)
    ensures Filter(s, p) == Filter(s, q)
  {
    if s != [] {
      FilterSame(s[1..], p, q);
    }
  }

  /** The lines whose product is ticked, in cart order. */
  function SelectedLines(lines: seq<CartLine>, selected: seq<string>): (r: seq<CartLine>)
    ensures forall l :: l in r <==> l in lines && l.productId in selected
    ensures |r| <= |lines|
  {
    Filter(lines, (l: CartLine) => l.productId in selected)
  }

  /** `calculateSelectedTotal`: the sum of the ticked lines' totals. */
  function SelectedTotal(lines: seq<CartLine>, selected: seq<string>): int {
    TotalOfLines(SelectedLines(lines, selected))
  }

  /** With non-negative line totals, the selected subtotal never exceeds the whole cart's. */
  lemma SelectedTotalAtMost(lines: seq<CartLine>, selected: seq<string>)
    requires forall l :: l in lines ==> l.totalPrice >= 0
    ensures 0 <= SelectedTotal(lines, selected) <= TotalOfLines(lines)
  {
    SumFilterAtMost(lines, LineTotal, (l: CartLine) => l.productId in selected);
    SumNonNegative(SelectedLines(lines, selected), LineTotal);
  }

  /** Ticking every line selects the whole cart. */
  lemma SelectAllSelectsCart(lines: seq<CartLine>)
    ensures SelectedLines(lines, Ids(lines)) == lines
    ensures SelectedTotal(lines, Ids(lines)) == TotalOfLines(lines)
  {
    forall l | l in lines ensures l.productId in Ids(lines) {
      var i :| 0 <= i < |lines| && lines[i] == l;
      assert Ids(lines)[i] == l.productId;
    }
    FilterAll(lines, (l: CartLine) => l.productId in Ids(lines));
  }

  /**
   * Only the set of ticked ids matters: ticking an id twice, or in another
   * order, selects the same lines.
   */
  lemma {:induction false} SelectionBySet(lines: seq<CartLine>, s1: seq<string>, s2: seq<string>)
    requires forall id :: id in s1 <==> id in s2
    ensures SelectedLines(lines, s1) == SelectedLines(lines, s2)
  {
    FilterSame(lines, (l: CartLine) => l.productId in s1, (l: CartLine) => l.productId in s2);
  }

  /** `cart.products.map(item => item.product_id)`. */
  function Ids(lines: seq<CartLine>): (ids: seq<string>)
    ensures |ids| == |lines|
    ensures forall i :: 0 <= i < |lines| ==> ids[i] == lines[i].productId
  {
    seq(|lines|, i requires 0 <= i < |lines| => lines[i].productId)
  }

  /** The state the order page receives from "Mua Hàng". */
  datatype Handoff = Handoff(selectedProducts: seq<CartLine>, totalAmount: int)

  /** What the cart service answers: the cart with code 200, another code, or a thrown error. */
  datatype FetchReply = Loaded(products: seq<CartLine>, totalPrice: int) | OtherCode | Threw

  /**
   * The page state: the cart (`null` until loaded), the ticked product ids,
   * the loading flag and the header counter kept in local storage.
   */
  class CartPage {
    var loaded: bool
    var lines: seq<CartLine>
    var cartTotal: int
    var selected: seq<string>
    var loading: bool
    var headerCount: int

    /** Once loaded, every line is priced and the header shows the sum of the quantities. */
    ghost predicate Valid()
      reads this
    {
      loaded ==> Priced(lines) && headerCount == TotalQuantity(lines)
    }

    /** The page before the first load; `storedCount` is whatever local storage held. */
    constructor (storedCount: int)
      ensures Valid() && !loaded && loading && selected == [] && headerCount == storedCount
    {
      loaded := false;
      lines := [];
      cartTotal := 0;
      selected := [];
      loading := true;
      headerCount := storedCount;
    }

    /** The empty-cart view is shown when nothing was loaded or the cart has no lines. */
    predicate ShowsEmptyCart()
      reads this
    {
      !loaded || |lines| == 0
    }

    /**
     * `fetchCart`: on code 200 price every line in place, keep the cart and
     * refresh the header count; in every case stop loading.
     */
    method FetchCart(reply: FetchReply)
      requires Valid()
      modifies this
      ensures Valid() && !loading && selected == old(selected)
      ensures reply.Loaded? ==> loaded && lines == WithTotals(reply.products)
                                && cartTotal == reply.totalPrice
                                && headerCount == TotalQuantity(reply.products)
      ensures !reply.Loaded? ==> loaded == old(loaded) && lines == old(lines)
                                 && cartTotal == old(cartTotal) && headerCount == old(headerCount)
    {
      if reply.Loaded? {
        var a := new CartLine[|reply.products|](i requires 0 <= i < |reply.products| => reply.products[i]);
        assert a[..] == reply.products;
        ComputeLineTotals(a);
        lines := a[..];
        cartTotal := reply.totalPrice;
        loaded := true;
        WithTotalsPriced(reply.products);
        headerCount := TotalQuantity(lines);
      }
      loading := false;
    }

    /** The select-all box: every line's id, or nothing. */
    method SelectAll(checked: bool)
      requires loaded
      modifies this
      ensures checked ==> selected == Ids(lines)
      ensures !checked ==> selected == []
      ensures lines == old(lines) && loaded == old(loaded) && cartTotal == old(cartTotal)
      ensures headerCount == old(headerCount) && loading == old(loading)
    {
      selected := if checked then Ids(lines) else [];
    }

    /** One line's box: append the id when ticked, drop every copy of it when cleared. */
    method SelectItem(id: string, checked: bool)
      modifies this
      ensures checked ==> selected == old(selected) + [id]
      ensures !checked ==> selected == RemoveAll(old(selected), id)
      ensures lines == old(lines) && loaded == old(loaded) && cartTotal == old(cartTotal)
      ensures headerCount == old(headerCount) && loading == old(loading)
    {
      if checked {
        selected := selected + [id];
      } else {
        selected := RemoveAll(selected, id);
      }
    }

    /**
     * `handleQuantityChange`, given what the caller passes: the minus and
     * plus buttons pass `Some(quantity - 1)` and `Some(quantity + 1)`, the
     * number box passes `parseInt` of its text, `None` standing for NaN.
     * The guard `q < 1` stops only a number below 1: NaN passes it, so the
     * update is sent (`sent`). When the server refuses (`apiOk` false)
     * nothing changes. Otherwise, for a number, the product's lines take the
     * new quantity and price and the cart total and header count are
     * recomputed; for NaN the source stores NaN in that line and in both
     * totals, which integers cannot hold, so the state after it is left
     * unstated.
     */
    method QuantityChange(id: string, q: Option<int>, apiOk: bool) returns (sent: bool)
      requires Valid() && loaded
      modifies this
      ensures sent <==> q.None? || q.value >= 1
      ensures loaded && selected == old(selected) && loading == old(loading)
      ensures |lines| == |old(lines)|
      ensures forall i :: 0 <= i < |lines| && old(lines)[i].productId != id ==> lines[i] == old(lines)[i]
      ensures q.Some? || !apiOk ==> Valid()
      ensures !sent || !apiOk ==> lines == old(lines) && cartTotal == old(cartTotal) && headerCount == old(headerCount)
      ensures sent && apiOk && q.Some? ==>
                && lines == SetQuantity(old(lines), id, q.value)
                && cartTotal == TotalOfLines(lines)
                && headerCount == TotalQuantity(Without(old(lines), id)) + q.value * Count(old(lines), Is(id))
    {
      if q.Some? && q.value < 1 {
        return false;
      }
      sent := true;
      if !apiOk || q.None? {
        return;
      }
      var n := q.value;
      SetQuantityPriced(lines, id, n);
      SetQuantityCount(lines, id, n);
      lines := SetQuantity(lines, id, n);
      cartTotal := TotalOfLines(lines);
      headerCount := TotalQuantity(lines);
    }

    /**
     * `handleRemoveItem`: when the server accepts, the product's lines leave
     * the cart and its id leaves the selection; the totals follow.
     */
    method RemoveItem(id: string, apiOk: bool)
      requires Valid() && loaded
      modifies this
      ensures Valid() && loaded && loading == old(loading)
      ensures !apiOk ==> lines == old(lines) && selected == old(selected)
                         && cartTotal == old(cartTotal) && headerCount == old(headerCount)
      ensures apiOk ==> lines == Without(old(lines), id) && selected == RemoveAll(old(selected), id)
                        && cartTotal == TotalOfLines(lines)
                        && headerCount == old(headerCount) - TotalQuantity(Filter(old(lines), Is(id)))
      ensures forall l :: l in lines ==> l in old(lines)
    {
      if !apiOk {
        return;
      }
      RemovalSubtracts(lines, id);
      WithoutPriced(lines, id);
      lines := Without(lines, id);
      selected := RemoveAll(selected, id);
      cartTotal := TotalOfLines(lines);
      headerCount := TotalQuantity(lines);
    }

    /**
     * `handleCheckout`: nothing when no box is ticked; otherwise the ticked
     * lines, in cart order, and their subtotal.
     */
    method Checkout() returns (h: Option<Handoff>)
      requires loaded
      ensures |selected| == 0 <==> h.None?
      ensures h.Some? ==> (forall l :: l in h.value.selectedProducts <==> l in lines && l.productId in selected)
      ensures h.Some? ==> h.value.selectedProducts == SelectedLines(lines, selected)
                          && h.value.totalAmount == TotalOfLines(h.value.selectedProducts)
    {
      if |selected| == 0 {
        return None;
      }
      var chosen := SelectedLines(lines, selected);
      h := Some(Handoff(chosen, SelectedTotal(lines, selected)));
    }
  }
}
