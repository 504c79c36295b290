/**
 * The Cart page. It keeps no state of its own: each control computes the
 * request it sends to the cart store, and the summary repeats the store's
 * total.
 */
module CartPage {
  import opened Wrappers
  import opened JsNumber
  import opened CartItems
  import Payment

  /** The controls on one cart line. */
  datatype Control = Decrement | QuantityInput(text: string) | Increment | Remove

  /** What a control asks the cart store to do. */
  datatype CartRequest = UpdateQuantity(id: int, quantity: int) | RemoveItem(id: int)

  /** The minus button is disabled at quantity 1 or below. */
  predicate DecrementDisabled(item: CartItem) {
    item.quantity <= 1
  }

  /** `parseInt(v) || 1`: NaN and 0 are falsy and become 1; any other number, negative too, is kept. */
  function TypedQuantity(text: string): (q: int)
    ensures q != 0
    ensures ParseInt(text).Some? && ParseInt(text).value != 0 ==> q == ParseInt(text).value
    ensures ParseInt(text).None? || ParseInt(text) == Some(0) ==> q == 1
  {
    match ParseInt(text)
    case Some(k) => if k != 0 then k else 1
    case None => 1
  }

  /**
   * The request a control on `item`'s line sends, or `None` when the control is
   * disabled and the click does nothing.
   */
  function Request(item: CartItem, control: Control): (r: Option<CartRequest>)
    ensures r.None? <==> control == Decrement && DecrementDisabled(item)
    ensures r.Some? ==> r.value.id == item.id
    ensures r.Some? && r.value.UpdateQuantity? && !control.QuantityInput? ==> r.value.quantity >= item.quantity - 1
    ensures control == Decrement && r.Some? ==> r.value == UpdateQuantity(item.id, item.quantity - 1) && r.value.quantity >= 1
    ensures control == Increment ==> r == Some(UpdateQuantity(item.id, item.quantity + 1))
    ensures control.QuantityInput? ==> r == Some(UpdateQuantity(item.id, TypedQuantity(control.text)))
    ensures control == Remove <==> r == Some(RemoveItem(item.id))
  {
    match control
    case Decrement => if DecrementDisabled(item) then None else Some(UpdateQuantity(item.id, item.quantity - 1))
    case QuantityInput(text) => Some(UpdateQuantity(item.id, TypedQuantity(text)))
    case Increment => Some(UpdateQuantity(item.id, item.quantity + 1))
    case Remove => Some(RemoveItem(item.id))
  }

  /** Minus undoes plus: after the store applies an increment, minus asks for the old quantity. */
  lemma DecrementUndoesIncrement(item: CartItem)
    requires item.quantity >= 1
    ensures Request(item, Increment) == Some(UpdateQuantity(item.id, item.quantity + 1))
    ensures Request(item.(quantity := item.quantity + 1), Decrement) == Some(UpdateQuantity(item.id, item.quantity))
  {
  }

  /** Typing the decimal form of a non-zero number requests exactly that number. */
  lemma TypedQuantityOfNumber(n: int)
    requires n != 0
    ensures TypedQuantity(IntToString(n)) == n
  {
    assert IntToString(n) + [] == IntToString(n);
    ParseIntOfIntToString(n, []);
  }

  /** An empty field requests 1. */
  lemma TypedQuantityOfEmpty()
    ensures TypedQuantity("") == 1
  {
  }

  /** "0" requests 1, as 0 is falsy. */
  lemma TypedQuantityOfZero()
    ensures TypedQuantity("0") == 1
  {
    assert IntToString(0) == "0" by {
      assert Digits(0) == "0";
    }
    assert IntToString(0) + [] == IntToString(0);
    ParseIntOfIntToString(0, []);
  }

  /** "-2" requests -2: the input does not clamp negative numbers. */
  lemma TypedQuantityOfMinusTwo()
    ensures TypedQuantity("-2") == -2
  {
    assert IntToString(-2) == "-2" by {
      assert Digits(2) == "2";
    }
    TypedQuantityOfNumber(-2);
  }

  /** Where "Proceed to Checkout" leads. */
  datatype Route = PaymentRoute

  /** `handleCheckout`: go to the payment page only when the cart has items. */
  function Checkout(items: seq<CartItem>): (target: Option<Route>)
    ensures target.Some? <==> items != []
  {
    if |items| > 0 then Some(PaymentRoute) else None
  }

  /** A cart line as shown: which item, its quantity, and whether minus is enabled. */
  datatype LineView = LineView(id: int, quantity: int, decrementDisabled: bool)

  /** What the page shows: the empty-cart notice, or the lines with the order summary. */
  datatype CartView =
    | EmptyCart
    | CartContents(lines: seq<LineView>, itemsAmount: int, total: int, checkoutDisabled: bool)

  /** The rendered page for the store's items and total. */
  function View(items: seq<CartItem>, totalPrice: int): (v: CartView)
    ensures v.EmptyCart? <==> items == []
    ensures v.CartContents? ==> |v.lines| == |items|
    ensures v.CartContents? ==> forall i :: 0 <= i < |items| ==>
      v.lines[i].id == items[i].id && (v.lines[i].decrementDisabled <==> Request(items[i], Decrement).None?)
    ensures v.CartContents? ==> v.itemsAmount == totalPrice && v.total == totalPrice
    ensures v.CartContents? ==> !v.checkoutDisabled
  {
    if |items| == 0 then EmptyCart
    else
      CartContents(
        seq(|items|, i requires 0 <= i < |items| => LineView(items[i].id, items[i].quantity, DecrementDisabled(items[i]))),
        totalPrice,
        totalPrice,
        |items| == 0)
  }

  /** The checkout button is enabled wherever it is shown, and then it leads to payment. */
  lemma CheckoutButtonLeadsToPayment(items: seq<CartItem>, totalPrice: int)
    requires View(items, totalPrice).CartContents?
    ensures !View(items, totalPrice).checkoutDisabled && Checkout(items) == Some(PaymentRoute)
  {
  }

  /**
   * The cart's total adds no tax, the payment page's does: the two agree exactly
   * when the rounded 18% tax is 0, i.e. for subtotals from -2 to 2.
   */
  lemma CartTotalVersusPaymentTotal(items: seq<CartItem>, totalPrice: int)
    requires items != []
    ensures View(items, totalPrice).total == Payment.GrandTotal(totalPrice) <==> -2 <= totalPrice <= 2
  {
    var t := Payment.Tax(totalPrice);
    if -2 <= totalPrice <= 2 {
      assert t == 0;
    } else {
      assert t != 0;
    }
  }
}
