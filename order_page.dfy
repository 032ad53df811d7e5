/**
 * The delivery-details page the cart hands off to: the form, its
 * validation, the map pick, and the order it submits to the backend.
 */
module OrderPage {
  import opened Common
  import Cart
  import OC = OrderController

  /** The fields of a handed-off product line that this page and the checkout page read. */
  datatype Selection = Selection(productId: string, price: int, discountPercentage: Option<int>, quantity: int)

  /** A cart line as the order page sees it. */
  function FromCart(l: Cart.CartLine): (s: Selection)
    ensures s.productId == l.productId && s.price == l.price && s.quantity == l.quantity
    ensures s.discountPercentage == l.discountPercentage
  {
    Selection(l.productId, l.price, l.discountPercentage, l.quantity)
  }

  /** `discountPercentage || 0`: an absent or zero discount is sent as 0. */
  function DiscountOrZero(d: Option<int>): (r: int)
    ensures d.Some? && d.value != 0 ==> r == d.value
    ensures d.None? || d.value == 0 ==> r == 0
  {
    if d.Some? && d.value != 0 then d.value else 0
  }

  /** One product line of the order payload. */
  function PayloadLine(s: Selection): (l: OC.OrderLine)
    ensures l.productId == s.productId && l.price == Some(s.price) && l.quantity == Some(s.quantity)
    ensures l.discountPercentage == Some(DiscountOrZero(s.discountPercentage))
  {
    OC.OrderLine(s.productId, Some(s.price), Some(DiscountOrZero(s.discountPercentage)), Some(s.quantity))
  }

  /** `selectedProducts.map(...)`: one payload line per selection, in order. */
  function PayloadLines(sel: seq<Selection>): (r: seq<OC.OrderLine>)
    ensures |r| == |sel|
    ensures forall i :: 0 <= i < |sel| ==> r[i] == PayloadLine(sel[i])
  {
    seq(|sel|, i requires 0 <= i < |sel| => PayloadLine(sel[i]))
  }

  /** The first problem `validateForm` reports. */
  datatype FormError = MissingName | MissingPhone | MissingAddress | MissingLocation

  /** The form: name, phone, address, the map position and the payment choice. */
  datatype Form = Form(
    fullName: string,
    phone: string,
    address: string,
    coordinates: Option<seq<real>>,
    paymentMethod: string)

  /** The form as the page opens: empty fields, no position, cash on delivery. */
  const InitialForm := Form("", "", "", None, "cod")

  /**
   * `validateForm`: name, phone and address must not be blank once trimmed,
   * and a position must have been picked, checked in that order.
   */
  function ValidateForm(f: Form): (e: Option<FormError>)
    ensures e.None? <==> !Blank(f.fullName) && !Blank(f.phone) && !Blank(f.address) && f.coordinates.Some?
    ensures e == Some(MissingName) <==> Blank(f.fullName)
    ensures e == Some(MissingPhone) <==> !Blank(f.fullName) && Blank(f.phone)
    ensures e == Some(MissingAddress) <==> !Blank(f.fullName) && !Blank(f.phone) && Blank(f.address)
    ensures e == Some(MissingLocation) <==> !Blank(f.fullName) && !Blank(f.phone) && !Blank(f.address) && f.coordinates.None?
  {
    if Trim(f.fullName) == "" then Some(MissingName)
    else if Trim(f.phone) == "" then Some(MissingPhone)
    else if Trim(f.address) == "" then Some(MissingAddress)
    else if f.coordinates.None? then Some(MissingLocation)
    else None
  }

  /**
   * The body `handleSubmitOrder` posts: status "pending", the fields as
   * typed (untrimmed), the picked position, and the selected lines. The
   * payment method chosen on the form is not part of it.
   */
  function OrderPayload(f: Form, sel: seq<Selection>): (req: OC.OrderRequest)
    ensures req.status == Some("pending")
    ensures req.userInfo == Some(OC.UserInfoIn(Some(f.fullName), Some(f.phone), Some(f.address),
                                               Some(OC.LocationIn("Point", f.coordinates))))
    ensures req.products == Some(PayloadLines(sel))
  {
    OC.OrderRequest(
      Some("pending"),
      Some(OC.UserInfoIn(Some(f.fullName), Some(f.phone), Some(f.address),
                         Some(OC.LocationIn("Point", f.coordinates)))),
      Some(PayloadLines(sel)))
  }

  /** The payment method picked on this page never reaches the order. */
  lemma PaymentMethodIgnored(f: Form, sel: seq<Selection>, m: string)
    ensures OrderPayload(f.(paymentMethod := m), sel) == OrderPayload(f, sel)
  {
  }

  /**
   * A form that passes the page's validation, with a two-coordinate
   * position, a non-empty selection and a signed-in user, is an order the
   * backend accepts, and the backend stores it as "pending".
   */
  lemma ValidFormAccepted(userId: Option<string>, f: Form, sel: seq<Selection>, now: int)
    requires ValidateForm(f).None?
    requires |f.coordinates.value| == 2 && |sel| > 0 && Truthy(userId)
    ensures OC.RequestOk(userId, OrderPayload(f, sel))
    ensures OC.BuildOrder(userId, OrderPayload(f, sel), now).status == "pending"
    ensures OC.BuildOrder(userId, OrderPayload(f, sel), now).products == PayloadLines(sel)
  {
  }

  /**
   * The page only checks that a position exists; the backend also wants
   * exactly two coordinates, so every form the page lets through with a
   * position of any other length is refused there.
   */
  lemma ShortPositionRefused(userId: Option<string>, f: Form, sel: seq<Selection>)
    requires ValidateForm(f).None? && |f.coordinates.value| != 2
    ensures !OC.RequestOk(userId, OrderPayload(f, sel))
  {
  }

  /** Such forms exist: a filled-in form with a one-coordinate position passes the page. */
  lemma OneCoordinatePassesPage()
    ensures var f := Form("An", "0901234567", "Ha Noi", Some([105.8]), "cod");
      ValidateForm(f).None? && |f.coordinates.value| != 2
  {
    var f := Form("An", "0901234567", "Ha Noi", Some([105.8]), "cod");
    assert !IsSpace(f.fullName[0]) && !IsSpace(f.phone[0]) && !IsSpace(f.address[0]);
  }

  /** What `createOrder` did: it threw, or answered with or without a `message`. */
  datatype CreateOutcome = CreateThrew | Answered(hasMessage: bool)

  /** The page's visible reaction to a submit. */
  datatype SubmitResult = Invalid(error: FormError) | Sent(payload: OC.OrderRequest, toOrders: bool, errorToast: bool)

  /**
   * The page state. `selectedProducts` and `totalAmount` come from the
   * navigation state, defaulting to `[]` and 0 when there is none.
   */
  class OrderForm {
    var form: Form
    var mapMode: bool
    var loading: bool
    const selectedProducts: seq<Selection>
    const totalAmount: int

    constructor (selectedProducts: seq<Selection>, totalAmount: int)
      ensures form == InitialForm && !mapMode && !loading
      ensures this.selectedProducts == selectedProducts && this.totalAmount == totalAmount
    {
      form := InitialForm;
      mapMode := false;
      loading := false;
      this.selectedProducts := selectedProducts;
      this.totalAmount := totalAmount;
    }

    /** The submit button is disabled while sending or until a position is picked. */
    predicate SubmitDisabled()
      reads this
    {
      loading || form.coordinates.None?
    }

    /** `handleInputChange` for the inputs named fullName, phone, address and paymentMethod. */
    method InputChange(name: string, value: string)
      modifies this
      ensures name == "fullName" ==> form == old(form).(fullName := value)
      ensures name == "phone" ==> form == old(form).(phone := value)
      ensures name == "address" ==> form == old(form).(address := value)
      ensures name == "paymentMethod" ==> form == old(form).(paymentMethod := value)
      ensures name !in {"fullName", "phone", "address", "paymentMethod"} ==> form == old(form)
      ensures form.coordinates == old(form).coordinates
      ensures mapMode == old(mapMode) && loading == old(loading)
    {
      if name == "fullName" {
        form := form.(fullName := value);
      } else if name == "phone" {
        form := form.(phone := value);
      } else if name == "address" {
        form := form.(address := value);
      } else if name == "paymentMethod" {
        form := form.(paymentMethod := value);
      }
    }

    /** `handleMapLocationSelect`: the picked address replaces the typed one, along with the position. */
    method MapLocationSelect(address: string, coordinates: seq<real>)
      modifies this
      ensures form == old(form).(address := address, coordinates := Some(coordinates))
      ensures mapMode == old(mapMode) && loading == old(loading)
    {
      form := form.(address := address, coordinates := Some(coordinates));
    }

    /** The map button flips between typing and picking on the map. */
    method ToggleMapMode()
      modifies this
      ensures mapMode == !old(mapMode) && form == old(form) && loading == old(loading)
    {
      mapMode := !mapMode;
    }

    /**
     * `handleSubmitOrder`: stop at the first validation error; otherwise post
     * the payload, go to the orders page when the answer has a `message`, and
     * show an error when the call throws. The loading flag is back to false
     * when it returns.
     */
    method SubmitOrder(outcome: CreateOutcome) returns (r: SubmitResult)
      ensures ValidateForm(form).Some? <==> r.Invalid?
      ensures r.Invalid? ==> r.error == ValidateForm(form).value
      ensures r.Sent? ==> r.payload == OrderPayload(form, selectedProducts)
      ensures r.Sent? ==> (r.toOrders <==> outcome == Answered(true))
      ensures r.Sent? ==> (r.errorToast <==> outcome == CreateThrew)
    {
      var e := ValidateForm(form);
      if e.Some? {
        return Invalid(e.value);
      }
      var payload := OrderPayload(form, selectedProducts);
      match outcome {
        case CreateThrew => r := Sent(payload, false, true);
        case Answered(m) => r := Sent(payload, m, false);
      }
    }
  }
}
