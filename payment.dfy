/**
 * The Payment page: the amounts in its order summary, the choice of payment
 * method, and the "processing" state around the simulated payment.
 */
module Payment {
  import opened Wrappers
  import opened JsText
  import opened JsNumber
  import opened CartItems

  const Rupee: char := '₹'

  /**
   * The number behind a display price: `parseInt` of the price with its first
   * "₹" and then its first "," removed (any further comma ends the number).
   */
  function NumericPrice(price: string): Option<int> {
    ParseInt(RemoveFirst(RemoveFirst(price, Rupee), ','))
  }

  /** A price that starts with "₹" loses exactly that sign; then the first comma goes. */
  lemma NumericPriceAfterRupee(digits: string)
    ensures NumericPrice([Rupee] + digits) == ParseInt(RemoveFirst(digits, ','))
  {
    assert ([Rupee] + digits)[1..] == digits;
  }

  /** The amount shown on an order-summary line: price times quantity, NaN if the price is. */
  function LineAmount(item: CartItem): (r: Option<int>)
    ensures r.None? <==> NumericPrice(item.price).None?
    ensures r.Some? ==> r.value == NumericPrice(item.price).value * item.quantity
  {
    match NumericPrice(item.price)
    case None => None
    case Some(unit) => Some(unit * item.quantity)
  }

  /** Digits grouped in twos from the right, as in the lakh and crore places of Indian notation. */
  function GroupPairs(ds: string): string
  {
    if |ds| <= 2 then ds else GroupPairs(ds[..|ds| - 2]) + "," + ds[|ds| - 2..]
  }

  /**
   * A whole-rupee display price as the catalogue writes it: "₹" and the digits,
   * the last three grouped apart, the rest in pairs ("₹299", "₹2,999", "₹1,00,000").
   */
  function IndianPriceString(n: nat): string
  {
    var ds := Digits(n);
    if |ds| <= 3 then [Rupee] + ds
    else [Rupee] + (GroupPairs(ds[..|ds| - 3]) + "," + ds[|ds| - 3..])
  }

  /** `parseInt` reads the digits of `n` as `n`. */
  lemma ParseDigits(n: nat)
    ensures ParseInt(Digits(n)) == Some(n)
  {
    assert IntToString(n) + [] == Digits(n);
    ParseIntOfIntToString(n, []);
  }

  /** A price of at most three digits has no comma and is read exactly. */
  lemma NumericPriceNoComma(n: nat)
    requires |Digits(n)| <= 3
    ensures NumericPrice(IndianPriceString(n)) == Some(n)
  {
    var ds := Digits(n);
    assert IndianPriceString(n) == [Rupee] + ds;
    NumericPriceAfterRupee(ds);
    assert ',' !in ds;
    ParseDigits(n);
  }

  /** "₹", digits with one comma among them: the comma is dropped and the digits are read. */
  lemma NumericPriceOfSplitDigits(head: string, tail: string, n: nat)
    requires head + tail == Digits(n) && ',' !in head
    ensures NumericPrice([Rupee] + (head + [','] + tail)) == Some(n)
  {
    NumericPriceAfterRupee(head + [','] + tail);
    RemoveFirstSplit(head, ',', tail);
    ParseDigits(n);
  }

  /** A prefix of a digit string holds no comma. */
  lemma NoCommaInDigits(n: nat, k: nat)
    requires k <= |Digits(n)|
    ensures ',' !in Digits(n)[..k]
  {
  }

  /** Four or five digits are written with one comma before the last three. */
  lemma IndianPriceOneComma(n: nat)
    requires 3 < |Digits(n)| <= 5
    ensures var ds := Digits(n);
      IndianPriceString(n) == [Rupee] + (ds[..|ds| - 3] + [','] + ds[|ds| - 3..])
  {
    var ds := Digits(n);
    assert GroupPairs(ds[..|ds| - 3]) == ds[..|ds| - 3];
  }

  /** A price of four or five digits has exactly one comma and is read exactly. */
  lemma NumericPriceOneComma(n: nat)
    requires 3 < |Digits(n)| <= 5
    ensures NumericPrice(IndianPriceString(n)) == Some(n)
  {
    var ds := Digits(n);
    IndianPriceOneComma(n);
    NoCommaInDigits(n, |ds| - 3);
    assert ds[..|ds| - 3] + ds[|ds| - 3..] == ds;
    NumericPriceOfSplitDigits(ds[..|ds| - 3], ds[|ds| - 3..], n);
  }

  /** A price below one lakh has at most one comma, so it is read exactly. */
  lemma NumericPriceBelowLakh(n: nat)
    requires n < 100000
    ensures NumericPrice(IndianPriceString(n)) == Some(n)
  {
    DigitsLength(n, 5);
    if |Digits(n)| <= 3 {
      NumericPriceNoComma(n);
    } else {
      NumericPriceOneComma(n);
    }
  }

  lemma DivThousand(n: nat)
    ensures n / 10 / 10 / 10 == n / 1000
  {
  }

  /** The digits of `n` without the last three are the digits of `n / 1000`. */
  lemma DigitsDropThree(n: nat)
    requires n >= 1000
    ensures |Digits(n)| > 3 && Digits(n)[..|Digits(n)| - 3] == Digits(n / 1000)
  {
    var ds := Digits(n);
    DigitsDropLast(n);
    DigitsDropLast(n / 10);
    DigitsDropLast(n / 10 / 10);
    DivThousand(n);
    assert ds[..|ds| - 3] == ds[..|ds| - 1][..|ds| - 2][..|ds| - 3];
  }

  /** "₹", then `lead`, a comma, and the rest: the first comma goes, `parseInt` stops at the next. */
  lemma NumericPriceOfTwoCommas(lead: string, pair: string, rest: string, m: nat)
    requires lead + pair == Digits(m) && ',' !in lead
    ensures NumericPrice([Rupee] + (lead + [','] + (pair + ([','] + rest)))) == Some(m)
  {
    var tail := [','] + rest;
    var s := lead + [','] + (pair + tail);
    RemoveFirstSplit(lead, ',', pair + tail);
    Regroup(lead, pair, tail);
    assert IntToString(m) == lead + pair;
    ParseIntOfIntToString(m, tail);
    NumericPriceAfterRupee(s);
  }

  /** Six or seven digits are written with a comma before the last three and one before the two ahead of them. */
  lemma IndianPriceTwoCommas(n: nat)
    requires 5 < |Digits(n)| <= 7
    ensures var ds := Digits(n); var head := ds[..|ds| - 3];
      IndianPriceString(n) == [Rupee] + (head[..|head| - 2] + [','] + (head[|head| - 2..] + ([','] + ds[|ds| - 3..])))
  {
    var ds := Digits(n);
    var head := ds[..|ds| - 3];
    var lead, pair := head[..|head| - 2], head[|head| - 2..];
    assert GroupPairs(lead) == lead;
    assert GroupPairs(head) == lead + "," + pair;
  }

  /**
   * From one lakh up to (not including) one crore a price has two commas and
   * reads as the rupee amount divided by 1000, rounded down.
   */
  lemma NumericPriceTwoCommas(n: nat)
    requires 100000 <= n < 10000000
    ensures NumericPrice(IndianPriceString(n)) == Some(n / 1000)
  {
    var ds := Digits(n);
    DigitsLength(n, 5);
    DigitsLength(n, 7);
    IndianPriceTwoCommas(n);
    DigitsDropThree(n);
    var head := ds[..|ds| - 3];
    var lead, pair := head[..|head| - 2], head[|head| - 2..];
    NoCommaInDigits(n, |head| - 2);
    assert lead == ds[..|head| - 2] && lead + pair == head;
    NumericPriceOfTwoCommas(lead, pair, ds[|ds| - 3..], n / 1000);
  }

  /** The digits of one lakh. */
  lemma DigitsOfLakh()
    ensures Digits(100000) == "100000"
  {
    assert Digits(1) == "1";
    assert Digits(10) == "10";
    assert Digits(100) == "100";
    assert Digits(1000) == "1000";
    assert Digits(10000) == "10000";
  }

  /** The lakh place stands apart from the thousands. */
  lemma GroupPairsOfHundred()
    ensures GroupPairs("100") == "1,00"
  {
    assert "100"[..1] == "1" && "100"[1..] == "00";
  }

  /** The catalogue writes one lakh as "₹1,00,000". */
  lemma OneLakhPriceString()
    ensures IndianPriceString(100000) == "₹1,00,000"
  {
    var ds := Digits(100000);
    DigitsOfLakh();
    GroupPairsOfHundred();
    assert ds[..|ds| - 3] == "100" && ds[|ds| - 3..] == "000";
  }

  /** "₹2,999" reads as 2999. */
  lemma NumericPriceWithComma()
    ensures NumericPrice("₹2,999") == Some(2999)
  {
    assert Digits(2999) == "2999" by {
      assert Digits(2) == "2";
      assert Digits(29) == "29";
      assert Digits(299) == "299";
    }
    assert "₹2,999" == [Rupee] + ("2" + [','] + "999");
    NumericPriceOfSplitDigits("2", "999", 2999);
  }

  /** "₹299" reads as 299. */
  lemma NumericPriceWithoutComma()
    ensures NumericPrice("₹299") == Some(299)
  {
    assert Digits(299) == "299" by {
      assert Digits(2) == "2";
      assert Digits(29) == "29";
    }
    assert IndianPriceString(299) == "₹299";
    NumericPriceNoComma(299);
  }

  /** A line for an item priced below one lakh shows price times quantity. */
  lemma LineAmountBelowLakh(item: CartItem, n: nat)
    requires n < 100000 && item.price == IndianPriceString(n)
    ensures LineAmount(item) == Some(n * item.quantity)
  {
    NumericPriceBelowLakh(n);
  }

  /**
   * `Math.round(subtotal * 0.18)`: the integer nearest to 18% of the subtotal,
   * halves rounded up.
   */
  function Tax(subtotal: int): (tax: int)
    ensures 100 * tax - 50 <= 18 * subtotal < 100 * tax + 50
  {
    (18 * subtotal + 50) / 100
  }

  /** The rounding bound determines the tax: no other integer is within it. */
  lemma TaxIsNearest(subtotal: int, tax: int)
    requires 100 * tax - 50 <= 18 * subtotal < 100 * tax + 50
    ensures tax == Tax(subtotal)
  {
  }

  /** Tax on a non-negative subtotal is non-negative and at most a fifth of it, plus rounding. */
  lemma TaxBounds(subtotal: int)
    requires subtotal >= 0
    ensures 0 <= Tax(subtotal) <= subtotal / 5 + 1
  {
  }

  /** The grand total, subtotal plus tax: the subtotal times 1.18, rounded as the tax is. */
  function GrandTotal(subtotal: int): (total: int)
    ensures 100 * total - 50 <= 118 * subtotal < 100 * total + 50
    ensures subtotal >= 0 ==> total >= subtotal
    ensures total - subtotal == Tax(subtotal)
  {
    subtotal + Tax(subtotal)
  }

  /** The radio values of the three payment methods, in the order they are offered. */
  const MethodValues: seq<string> := ["card", "upi", "netbanking"]

  /** The detail forms the page can show under the method choice. */
  datatype DetailForm = CardDetails | UpiDetails | BankSelection

  /** The detail forms shown for a `paymentMethod` value, in page order. */
  function DetailForms(paymentMethod: string): (forms: seq<DetailForm>)
    ensures |forms| == 1 <==> paymentMethod in MethodValues
    ensures paymentMethod !in MethodValues ==> forms == []
    ensures paymentMethod == "card" ==> forms == [CardDetails]
    ensures paymentMethod == "upi" ==> forms == [UpiDetails]
    ensures paymentMethod == "netbanking" ==> forms == [BankSelection]
  {
    (if paymentMethod == "card" then [CardDetails] else []) +
    (if paymentMethod == "upi" then [UpiDetails] else []) +
    (if paymentMethod == "netbanking" then [BankSelection] else [])
  }

  /** The text on the pay button. */
  datatype PayLabel = ProcessingLabel | PayAmount(amount: int)

  /** What the page shows: the empty-cart notice, or the checkout with its summary. */
  datatype PaymentView =
    | NoItemsToPay
    | SecureCheckout(
        detailForms: seq<DetailForm>,
        lineAmounts: seq<Option<int>>,
        subtotal: int,
        tax: int,
        total: int,
        payLabel: PayLabel,
        payDisabled: bool)

  /**
   * The page's own state (`paymentMethod`, `isProcessing`) and what it reads
   * from the cart store (`items`, `totalPrice`).
   */
  class PaymentPage {
    var paymentMethod: string
    var isProcessing: bool
    var items: seq<CartItem>
    var totalPrice: int

    /** The radio group only ever reports one of the three method values. */
    predicate Valid()
      reads this
    {
      paymentMethod in MethodValues
    }

    /** A fresh page over the store's current contents: card selected, not processing. */
    constructor (items: seq<CartItem>, totalPrice: int)
      ensures Valid()
      ensures this.items == items && this.totalPrice == totalPrice
      ensures paymentMethod == "card" && !isProcessing
      ensures items != [] ==> View().SecureCheckout? && View().detailForms == [CardDetails]
    {
      this.items := items;
      this.totalPrice := totalPrice;
      paymentMethod := "card";
      isProcessing := false;
    }

    /** The rendered page. */
    function View(): (v: PaymentView)
      reads this
      ensures v.NoItemsToPay? <==> items == []
      ensures v.SecureCheckout? && Valid() ==> |v.detailForms| == 1
      ensures v.SecureCheckout? ==>
        && v.detailForms == DetailForms(paymentMethod)
        && |v.lineAmounts| == |items|
        && (forall i :: 0 <= i < |items| ==> v.lineAmounts[i] == LineAmount(items[i]))
        && v.subtotal == totalPrice
        && v.tax == Tax(totalPrice)
        && v.total == v.subtotal + v.tax
        && v.payDisabled == isProcessing
        && v.payLabel == (if isProcessing then ProcessingLabel else PayAmount(v.total))
    {
      if |items| == 0 then NoItemsToPay
      else
        var total := totalPrice + Tax(totalPrice);
        SecureCheckout(
          DetailForms(paymentMethod),
          seq(|items|, i requires 0 <= i < |items| reads this => LineAmount(items[i])),
          totalPrice,
          Tax(totalPrice),
          total,
          if isProcessing then ProcessingLabel else PayAmount(total),
          isProcessing)
    }

    /** The pay button is there and enabled: the cart is not empty and no payment is running. */
    predicate CanPay()
      reads this
      ensures CanPay() <==> items != [] && !isProcessing
    {
      View().SecureCheckout? && !View().payDisabled
    }

    /** The radio group reports a newly chosen method. */
    method SelectMethod(value: string)
      requires Valid() && value in MethodValues
      modifies this
      ensures Valid()
      ensures paymentMethod == value
      ensures isProcessing == old(isProcessing) && items == old(items) && totalPrice == old(totalPrice)
    {
      paymentMethod := value;
    }

    /** The first step of the payment handler: mark the payment as running. */
    method StartPayment()
      requires Valid()
      modifies this
      ensures Valid()
      ensures isProcessing
      ensures paymentMethod == old(paymentMethod) && items == old(items) && totalPrice == old(totalPrice)
    {
      isProcessing := true;
    }

    /**
     * The last steps of the payment handler, after the delay: the store's
     * `clearCart` empties the list, and processing stops. The store's total
     * after clearing, `clearedTotal`, is whatever the store reports.
     */
    method FinishPayment(clearedTotal: int)
      requires Valid()
      modifies this
      ensures Valid()
      ensures items == [] && totalPrice == clearedTotal && !isProcessing
      ensures paymentMethod == old(paymentMethod)
      ensures View() == NoItemsToPay
    {
      items := [];
      totalPrice := clearedTotal;
      isProcessing := false;
    }

    /**
     * The whole payment handler. `during` is the page as shown while the
     * simulated payment waits: the button disabled and labelled "Processing...".
     */
    method HandlePayment(clearedTotal: int) returns (ghost during: PaymentView)
      requires Valid()
      modifies this
      ensures Valid()
      ensures old(items) != [] ==> during.SecureCheckout? && during.payDisabled && during.payLabel == ProcessingLabel
      ensures old(items) != [] ==> |during.detailForms| == 1
      ensures old(items) != [] ==> during.total == GrandTotal(old(totalPrice))
      ensures items == [] && totalPrice == clearedTotal && !isProcessing
      ensures paymentMethod == old(paymentMethod)
    {
      StartPayment();
      during := View();
      FinishPayment(clearedTotal);
    }

    /** A click on the pay button: it runs the handler only when the button is there and enabled. */
    method ClickPay(clearedTotal: int) returns (started: bool)
      requires Valid()
      modifies this
      ensures Valid()
      ensures started == old(CanPay())
      ensures started ==> items == [] && totalPrice == clearedTotal && !isProcessing
      ensures !started ==> items == old(items) && totalPrice == old(totalPrice) && isProcessing == old(isProcessing)
      ensures paymentMethod == old(paymentMethod)
    {
      started := CanPay();
      if started {
        var _ := HandlePayment(clearedTotal);
      }
    }
  }
}
