/**
 * The product-detail page: the quantity selector with its 1..99 guard and
 * its text input read with `parseInt(...) || 1`, and the add-to-cart and
 * buy-now buttons, which check sign-in, the product id and the stock in
 * that order before acting.
 */
module DetailProduct {
  import opened Common
  import OrderPage
  import OrderDetail
  import OC = OrderController

  // ---------------------------------------------------------------------------
  // Reading the quantity input
  // ---------------------------------------------------------------------------

  /** The longest prefix of `s` made of decimal digits. */
  function LeadingDigits(s: string): (d: string)
    ensures AllDigits(d) && |d| <= |s| && d == s[..|d|]
    ensures |d| < |s| ==> !IsDigit(s[|d|])
  {
    if s == [] || !IsDigit(s[0]) then []
    else
      var rest := LeadingDigits(s[1..]);
      assert s[1..][..|rest|] == s[1..|rest| + 1];
      [s[0]] + rest
  }

  /**
   * `parseInt(s)` in base 10: leading whitespace skipped, an optional sign,
   * then as many digits as follow; no digit at all is NaN (`None`).
   */
  function ParseInt(s: string): (r: Option<int>)
    ensures r.None? <==> LeadingDigits(Unsigned(TrimStart(s))) == []
  {
    var t := TrimStart(s);
    var d := LeadingDigits(Unsigned(t));
    if d == [] then None
    else
      var v: int := DigitsValue(d);
      if t[0] == '-' then Some(-v) else Some(v)
  }

  /** The text after a leading sign, if there is one. */
  function Unsigned(t: string): string {
    if t != [] && (t[0] == '-' || t[0] == '+') then t[1..] else t
  }

  /** The digits of a numeral are read up to the first character that is not a digit. */
  lemma {:induction false} LeadingDigitsOfNumeral(digits: string, rest: string)
    requires AllDigits(digits)
    requires rest == [] || !IsDigit(rest[0])
    ensures LeadingDigits(digits + rest) == digits
  {
    if digits != [] {
      assert (digits + rest)[1..] == digits[1..] + rest;
      LeadingDigitsOfNumeral(digits[1..], rest);
    } else {
      assert digits + rest == rest;
    }
  }

  /** `parseInt` reads back a written whole number, whatever non-digit text follows it ("7", "7.5", "7abc"). */
  lemma ParseIntReadsNumeral(n: nat, rest: string)
    requires rest == [] || !IsDigit(rest[0])
    ensures ParseInt(ShowNat(n) + rest) == Some(n)
  {
    NumeralStartsWithDigit(ShowNat(n), rest);
    LeadingDigitsOfNumeral(ShowNat(n), rest);
    ShowNatRoundTrip(n);
  }

  /** Text that starts with a digit has no blank to trim and no sign to drop. */
  lemma NumeralStartsWithDigit(digits: string, rest: string)
    requires digits != [] && AllDigits(digits)
    ensures Unsigned(TrimStart(digits + rest)) == digits + rest
  {
    var s := digits + rest;
    assert IsDigit(s[0]) by { assert s[0] == digits[0]; }
    TrimStartKeeps(s);
  }

  /** `parseInt(value) || 1`: NaN and 0 become 1, any other number is kept. */
  function QuantityFromInput(value: string): (q: int)
    ensures ParseInt(value).None? ==> q == 1
    ensures ParseInt(value).Some? && ParseInt(value).value != 0 ==> q == ParseInt(value).value
    ensures q != 0
  {
    var n := ParseInt(value);
    if n.None? || n.value == 0 then 1 else n.value
  }

  /** Text that does not start with a number, such as an emptied field, reads as quantity 1. */
  lemma EmptyInputReadsAsOne()
    ensures QuantityFromInput("") == 1
    ensures QuantityFromInput("abc") == 1
  {
    assert LeadingDigits(Unsigned(TrimStart(""))) == [];
    assert TrimStart("abc") == "abc";
    assert Unsigned("abc") == "abc";
  }

  // ---------------------------------------------------------------------------
  // The buttons
  // ---------------------------------------------------------------------------

  /** The fields of the loaded product the buttons read; a stock the backend omits is `None`. */
  datatype Product = Product(
    id: Option<string>, title: string, price: int, stock: Option<int>, discountPercentage: Option<int>)

  /** `product?._id` is truthy. */
  predicate HasId(product: Option<Product>) {
    product.Some? && Truthy(product.value.id)
  }

  /** `quantity > product.stock`; a comparison with an absent stock is false. */
  predicate OverStock(p: Product, quantity: int) {
    p.stock.Some? && quantity > p.stock.value
  }

  /** Why a button did nothing but show a message. */
  datatype Blocked = LoginFirst | NotFound | NotEnoughStock(stock: int)

  /** The three checks both buttons make, in their order; the first that fails decides. */
  function FirstBlock(loggedIn: bool, product: Option<Product>, quantity: int): (b: Option<Blocked>)
    ensures !loggedIn ==> b == Some(LoginFirst)
    ensures loggedIn && !HasId(product) ==> b == Some(NotFound)
    ensures loggedIn && HasId(product) && OverStock(product.value, quantity) ==>
      b == Some(NotEnoughStock(product.value.stock.value))
    ensures b.None? <==> loggedIn && HasId(product) && !OverStock(product.value, quantity)
  {
    if !loggedIn then Some(LoginFirst)
    else if !HasId(product) then Some(NotFound)
    else if OverStock(product.value, quantity) then Some(NotEnoughStock(product.value.stock.value))
    else None
  }

  /** What `postCart` answered: nothing usable, an object with a code and a `success` flag, or a throw. */
  datatype CartReply = NoAnswer | CartAnswer(code: Option<int>, success: bool) | CartThrew

  /** The result of a cart post: added, refused, or failed with an error. */
  datatype PostResult = Added | NotAdded | PostFailed

  /** The add-to-cart button: blocked by a check, or the posted `{productId, quantity}` and what came of it. */
  datatype AddOutcome = AddBlocked(why: Blocked) | Posted(productId: string, quantity: int, result: PostResult)

  /** `handleAddToCart`. */
  function AddToCart(loggedIn: bool, product: Option<Product>, quantity: int, reply: CartReply): (o: AddOutcome)
    ensures o.AddBlocked? <==> FirstBlock(loggedIn, product, quantity).Some?
    ensures o.AddBlocked? ==> o.why == FirstBlock(loggedIn, product, quantity).value
    ensures o.Posted? ==> o.productId == product.value.id.value && o.quantity == quantity
    ensures o.Posted? ==>
      (o.result == Added <==> reply.CartAnswer? && (reply.code == Some(200) || reply.success))
    ensures o.Posted? ==> (o.result == PostFailed <==> reply.CartThrew?)
  {
    var b := FirstBlock(loggedIn, product, quantity);
    if b.Some? then AddBlocked(b.value)
    else
      var result :=
        if reply.CartThrew? then PostFailed
        else if reply.CartAnswer? && (reply.code == Some(200) || reply.success) then Added
        else NotAdded;
      Posted(product.value.id.value, quantity, result)
  }

  /** The buy-now button: blocked by a check, or the navigation to the order page with its state. */
  datatype BuyOutcome = BuyBlocked(why: Blocked) | ToOrder(selectedProducts: seq<OrderPage.Selection>, totalAmount: int)

  /**
   * `handleBuyNow`: after the checks, one selected line for this product,
   * with the discount defaulted to 0, and a total of price times quantity.
   */
  function BuyNow(loggedIn: bool, product: Option<Product>, quantity: int): (o: BuyOutcome)
    ensures o.BuyBlocked? <==> FirstBlock(loggedIn, product, quantity).Some?
    ensures o.BuyBlocked? ==> o.why == FirstBlock(loggedIn, product, quantity).value
    ensures o.ToOrder? ==> |o.selectedProducts| == 1
    ensures o.ToOrder? ==>
      o.selectedProducts[0] == OrderPage.Selection(product.value.id.value, product.value.price,
                                                   Some(OrderPage.DiscountOrZero(product.value.discountPercentage)), quantity)
    ensures o.ToOrder? ==> o.totalAmount == product.value.price * quantity
  {
    var b := FirstBlock(loggedIn, product, quantity);
    if b.Some? then BuyBlocked(b.value)
    else
      var p := product.value;
      var line := OrderPage.Selection(p.id.value, p.price, Some(OrderPage.DiscountOrZero(p.discountPercentage)), quantity);
      ToOrder([line], p.price * quantity)
  }

  /** Both buttons refuse for the same reason whenever either refuses. */
  lemma ButtonsBlockAlike(loggedIn: bool, product: Option<Product>, quantity: int, reply: CartReply)
    ensures AddToCart(loggedIn, product, quantity, reply).AddBlocked? <==> BuyNow(loggedIn, product, quantity).BuyBlocked?
    ensures AddToCart(loggedIn, product, quantity, reply).AddBlocked? ==>
      AddToCart(loggedIn, product, quantity, reply).why == BuyNow(loggedIn, product, quantity).why
  {
  }

  /**
   * The total handed to the order page leaves the discount out, while the
   * order that page posts keeps it: for a non-negative price and quantity
   * and a discount in 0..100, the handed total is never below the order's
   * amount, and equals it exactly when nothing is discounted.
   */
  lemma BuyNowTotalIgnoresDiscount(p: Product, quantity: int)
    requires Truthy(p.id) && !OverStock(p, quantity)
    requires p.price > 0 && quantity > 0
    requires 0 <= OrderPage.DiscountOrZero(p.discountPercentage) <= 100
    ensures var o := BuyNow(true, Some(p), quantity);
      o.ToOrder? &&
      OrderDetail.LinesAmount100(OrderPage.PayloadLines(o.selectedProducts)) <= 100 * o.totalAmount
    ensures var o := BuyNow(true, Some(p), quantity);
      OrderDetail.LinesAmount100(OrderPage.PayloadLines(o.selectedProducts)) == 100 * o.totalAmount
      <==> OrderPage.DiscountOrZero(p.discountPercentage) == 0
  {
    var o := BuyNow(true, Some(p), quantity);
    var d := OrderPage.DiscountOrZero(p.discountPercentage);
    var lines := OrderPage.PayloadLines(o.selectedProducts);
    var l := OC.OrderLine(p.id.value, Some(p.price), Some(d), Some(quantity));
    assert lines == [l];
    assert OrderDetail.LinesAmount100([l]) == OrderDetail.LineAmount100(l) + OrderDetail.LinesAmount100([l][1..]);
    DiscountScales(p.price, d, quantity);
  }

  /** `price * (100 - d) * q` against `100 * price * q`. */
  lemma DiscountScales(price: int, d: int, q: int)
    requires price > 0 && q > 0 && 0 <= d <= 100
    ensures price * (100 - d) * q <= 100 * (price * q)
    ensures price * (100 - d) * q == 100 * (price * q) <==> d == 0
  {
    var pq := price * q;
    assert price * (100 - d) * q == (100 - d) * pq;
    assert pq > 0;
    assert 100 * pq - (100 - d) * pq == d * pq;
  }

  // ---------------------------------------------------------------------------
  // The page state
  // ---------------------------------------------------------------------------

  /** The range the quantity selector accepts. */
  predicate QuantityInRange(q: int) {
    1 <= q <= 99
  }

  class DetailProductPage {
    var product: Option<Product>
    var quantity: int
    var loading: bool

    /** The quantity shown is always between 1 and 99. */
    predicate Valid()
      reads this
    {
      QuantityInRange(quantity)
    }

    constructor ()
      ensures Valid() && product.None? && quantity == 1 && loading
    {
      product := None;
      quantity := 1;
      loading := true;
    }

    /** The detail fetch: the answered product is stored and loading ends; the quantity is kept. */
    method Loaded(p: Option<Product>)
      requires Valid()
      modifies this
      ensures Valid() && product == p && !loading && quantity == old(quantity)
    {
      product := p;
      loading := false;
    }

    /** `handleQuantityChange`: a quantity in 1..99 is taken, any other is ignored. */
    method QuantityChange(q: int)
      requires Valid()
      modifies this
      ensures Valid()
      ensures QuantityInRange(q) ==> quantity == q
      ensures !QuantityInRange(q) ==> quantity == old(quantity)
      ensures product == old(product) && loading == old(loading)
    {
      if 1 <= q && q <= 99 {
        quantity := q;
      }
    }

    /** Typing in the quantity field: the text is read with `parseInt(...) || 1`, then guarded. */
    method QuantityInput(value: string)
      requires Valid()
      modifies this
      ensures Valid()
      ensures QuantityInRange(QuantityFromInput(value)) ==> quantity == QuantityFromInput(value)
      ensures !QuantityInRange(QuantityFromInput(value)) ==> quantity == old(quantity)
      ensures product == old(product) && loading == old(loading)
    {
      QuantityChange(QuantityFromInput(value));
    }

    /** The minus button: one less, but never below 1. */
    method Decrement()
      requires Valid()
      modifies this
      ensures Valid() && quantity == Max(old(quantity) - 1, 1)
      ensures product == old(product) && loading == old(loading)
    {
      QuantityChange(quantity - 1);
    }

    /** The plus button: one more, but never above 99. */
    method Increment()
      requires Valid()
      modifies this
      ensures Valid() && quantity == Min(old(quantity) + 1, 99)
      ensures product == old(product) && loading == old(loading)
    {
      QuantityChange(quantity + 1);
    }
  }
}
