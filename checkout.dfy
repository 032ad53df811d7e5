/**
 * The payment-choice page: confirming an order either as cash on delivery
 * or through an online provider (ZaloPay, MoMo). Every call to the outside
 * world is recorded as an effect, and the answers those calls give are
 * parameters.
 */
module Checkout {
  import opened Common
  import OC = OrderController
  import OrderPage

  datatype Provider = ZaloPay | MoMo

  /** What the page does, in order. */
  datatype Effect =
    | CreateOrder(request: OC.OrderRequest)
    | RemoveFromCart(productIds: seq<string>)
    | CreatePayment(provider: Provider, total: int, amount: int)
    | Navigate(path: string)
    | Redirect(url: string)
    | ToastSuccess
    | ToastError

  /** The answer of `createOrder`: `None` when it threw. */
  datatype CreateReply = CreateReply(hasMessage: bool, hasOrder: bool)

  /** The answer of the payment call: `None` when it threw. */
  datatype PayReply = PayReply(paymentUrl: Option<string>, payUrl: Option<string>)

  /** The provider an online payment method names. */
  function ProviderOf(paymentMethod: string): (p: Option<Provider>)
    ensures p == Some(ZaloPay) <==> paymentMethod == "zalopay"
    ensures p == Some(MoMo) <==> paymentMethod == "momo"
  {
    if paymentMethod == "zalopay" then Some(ZaloPay)
    else if paymentMethod == "momo" then Some(MoMo)
    else None
  }

  /** The body posted for an order paid `status`-wise: the user info as handed over, and the selected lines. */
  function Payload(status: string, userInfo: Option<OC.UserInfoIn>, sel: seq<OrderPage.Selection>): (req: OC.OrderRequest)
    ensures req.status == Some(status) && req.userInfo == userInfo
    ensures req.products == Some(OrderPage.PayloadLines(sel))
  {
    OC.OrderRequest(Some(status), userInfo, Some(OrderPage.PayloadLines(sel)))
  }

  /** `selectedProducts.map(item => item.product_id)`. */
  function SelectedIds(sel: seq<OrderPage.Selection>): (ids: seq<string>)
    ensures |ids| == |sel| && forall i :: 0 <= i < |sel| ==> ids[i] == sel[i].productId
  {
    seq(|sel|, i requires 0 <= i < |sel| => sel[i].productId)
  }

  /** Where the page sends the browser once a payment link exists: `paymentUrl`, else `payUrl`. */
  function PaymentLink(r: PayReply): (url: Option<string>)
    ensures Truthy(r.paymentUrl) ==> url == r.paymentUrl
    ensures !Truthy(r.paymentUrl) && Truthy(r.payUrl) ==> url == r.payUrl
    ensures !Truthy(r.paymentUrl) && !Truthy(r.payUrl) ==> url.None?
  {
    if Truthy(r.paymentUrl) then r.paymentUrl
    else if Truthy(r.payUrl) then r.payUrl
    else None
  }

  /** The status an order is posted with for a known payment method. */
  function StatusFor(paymentMethod: string): string {
    if paymentMethod == "cod" then "pending" else "pending_payment"
  }

  /** Whether the answer of `createOrder` lets the flow go on: a `message` for cash, an `order` online. */
  predicate Proceeds(paymentMethod: string, r: CreateReply) {
    if paymentMethod == "cod" then r.hasMessage else r.hasOrder
  }

  /**
   * The effects of `handleConfirmOrder`. Cash on delivery posts a "pending"
   * order and, on an answer with a message, clears the bought lines from the
   * cart (a failure there is ignored) and goes to the orders page. ZaloPay
   * and MoMo post a "pending_payment" order and, on an answer carrying the
   * order, clear the cart, ask the provider for a link and follow it; the
   * link request reads the customer's name from the handed-over user info,
   * so without one it throws before the provider is asked. Any throw ends in
   * an error toast; any other method does nothing.
   */
  function ConfirmEffects(
    paymentMethod: string, userInfo: Option<OC.UserInfoIn>, sel: seq<OrderPage.Selection>,
    totalAmount: int, created: Option<CreateReply>, paid: Option<PayReply>): (effects: seq<Effect>)
    ensures paymentMethod != "cod" && ProviderOf(paymentMethod).None? <==> effects == []
    ensures |effects| <= 4
  {
    var provider := ProviderOf(paymentMethod);
    if paymentMethod != "cod" && provider.None? then []
    else
      var post := CreateOrder(Payload(StatusFor(paymentMethod), userInfo, sel));
      if created.None? then [post, ToastError]
      else if !Proceeds(paymentMethod, created.value) then [post]
      else if paymentMethod == "cod" then [post, RemoveFromCart(SelectedIds(sel)), ToastSuccess, Navigate("/orders")]
      else if userInfo.None? then [post, RemoveFromCart(SelectedIds(sel)), ToastError]
      else
        var pay := [post, RemoveFromCart(SelectedIds(sel)), CreatePayment(provider.value, totalAmount, totalAmount)];
        if paid.Some? && PaymentLink(paid.value).Some? then pay + [Redirect(PaymentLink(paid.value).value)]
        else pay + [ToastError]
  }

  /** `handleConfirmOrder`, one awaited call after another. */
  method ConfirmOrder(
    paymentMethod: string,
    userInfo: Option<OC.UserInfoIn>,
    sel: seq<OrderPage.Selection>,
    totalAmount: int,
    created: Option<CreateReply>,
    paid: Option<PayReply>)
    returns (effects: seq<Effect>)
    ensures effects == ConfirmEffects(paymentMethod, userInfo, sel, totalAmount, created, paid)
  {
    effects := [];
    var provider := ProviderOf(paymentMethod);
    if paymentMethod == "cod" {
      effects := effects + [CreateOrder(Payload("pending", userInfo, sel))];
      if created.None? {
        effects := effects + [ToastError];
        return;
      }
      if created.value.hasMessage {
        effects := effects + [RemoveFromCart(SelectedIds(sel)), ToastSuccess, Navigate("/orders")];
      }
    } else if provider.Some? {
      effects := effects + [CreateOrder(Payload("pending_payment", userInfo, sel))];
      if created.None? {
        effects := effects + [ToastError];
        return;
      }
      if created.value.hasOrder {
        effects := effects + [RemoveFromCart(SelectedIds(sel))];
        if userInfo.None? {
          effects := effects + [ToastError];
          return;
        }
        effects := effects + [CreatePayment(provider.value, totalAmount, totalAmount)];
        if paid.None? {
          effects := effects + [ToastError];
          return;
        }
        var link := PaymentLink(paid.value);
        if link.Some? {
          effects := effects + [Redirect(link.value)];
        } else {
          effects := effects + [ToastError];
        }
      }
    }
  }

  /** For a known method, the first thing done is posting the order, with the status that method calls for. */
  lemma PostsFirst(
    paymentMethod: string, userInfo: Option<OC.UserInfoIn>, sel: seq<OrderPage.Selection>,
    totalAmount: int, created: Option<CreateReply>, paid: Option<PayReply>)
    requires paymentMethod == "cod" || ProviderOf(paymentMethod).Some?
    ensures var e := ConfirmEffects(paymentMethod, userInfo, sel, totalAmount, created, paid);
      && |e| >= 1
      && e[0] == CreateOrder(Payload(if paymentMethod == "cod" then "pending" else "pending_payment", userInfo, sel))
      && forall i :: 1 <= i < |e| ==> !e[i].CreateOrder?
  {
  }

  /**
   * The cart is cleared exactly when the order was created, right after
   * posting it, and of exactly the lines that were bought.
   */
  lemma ClearsOnlyAfterCreate(
    paymentMethod: string, userInfo: Option<OC.UserInfoIn>, sel: seq<OrderPage.Selection>,
    totalAmount: int, created: Option<CreateReply>, paid: Option<PayReply>)
    ensures var e := ConfirmEffects(paymentMethod, userInfo, sel, totalAmount, created, paid);
      && (forall i :: 0 <= i < |e| && e[i].RemoveFromCart? ==> i == 1 && e[i].productIds == SelectedIds(sel))
      && ((exists i :: 0 <= i < |e| && e[i].RemoveFromCart?) <==>
            (paymentMethod == "cod" || ProviderOf(paymentMethod).Some?) && created.Some? && Proceeds(paymentMethod, created.value))
  {
    var e := ConfirmEffects(paymentMethod, userInfo, sel, totalAmount, created, paid);
    if (paymentMethod == "cod" || ProviderOf(paymentMethod).Some?) && created.Some? && Proceeds(paymentMethod, created.value) {
      assert e[1].RemoveFromCart?;
    }
  }

  /**
   * Only the online methods ask for a payment link, of the provider the
   * customer chose and for exactly the amount the cart computed; only cash on
   * delivery lands on the orders page.
   */
  lemma PaymentMatchesChoice(
    paymentMethod: string, userInfo: Option<OC.UserInfoIn>, sel: seq<OrderPage.Selection>,
    totalAmount: int, created: Option<CreateReply>, paid: Option<PayReply>)
    ensures var e := ConfirmEffects(paymentMethod, userInfo, sel, totalAmount, created, paid);
      && (forall x :: x in e && x.CreatePayment? ==>
            ProviderOf(paymentMethod) == Some(x.provider) && x.total == totalAmount && x.amount == totalAmount)
      && (forall x :: x in e && x.Navigate? ==> paymentMethod == "cod" && x.path == "/orders")
      && (paymentMethod == "cod" ==> forall x :: x in e ==> !x.Redirect?)
  {
  }

  /**
   * The browser is sent to a payment page exactly when an online order was
   * created for a customer whose details were handed over and the provider
   * answered with a link, and it is sent to that link.
   */
  lemma RedirectFollowsLink(
    paymentMethod: string, userInfo: Option<OC.UserInfoIn>, sel: seq<OrderPage.Selection>,
    totalAmount: int, created: Option<CreateReply>, paid: Option<PayReply>, url: string)
    ensures Redirect(url) in ConfirmEffects(paymentMethod, userInfo, sel, totalAmount, created, paid) <==>
      && ProviderOf(paymentMethod).Some? && created.Some? && created.value.hasOrder
      && userInfo.Some? && paid.Some? && PaymentLink(paid.value) == Some(url)
  {
  }
}
