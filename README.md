# AyurvedaCareConnect: the logic of its shop pages, in Dafny

AyurvedaCareConnect is a React web shop for Ayurvedic products. This project
models the logic of three of its pages and proves properties about it:

- **Marketplace.** The product filter: a case-insensitive search over name and
  brand, plus an exact category choice. Also the page's initial state and its
  "No products found" notice.
- **Payment.** Each summary line turns a display price such as `"₹2,999"` into
  a number, with JavaScript's `parseInt` after removing the first `₹` and the
  first comma. The tax is 18 % of the subtotal, rounded. The page also covers
  the choice of payment method and the "processing" state around the simulated
  payment. It is a class whose methods make those state changes.
- **Cart.** The request that each control on a cart line sends to the cart
  store (minus, typed quantity, plus, remove), the checkout guard, the order
  summary, and the empty-cart view.

Modules:

- `Wrappers` (file `wrappers.dfy`): `Option`.
- `JsText` (file `js_text.dfy`): the JavaScript string operations the pages
  use, namely `toLowerCase`, `includes`, and `replace` with a one-character
  pattern.
- `JsNumber` (file `js_number.dfy`): `parseInt` with no radix argument, and
  `String(n)`, whose output `parseInt` reads back.
- `CartItems` (file `cart_items.dfy`): the cart item record that the pages
  read from the cart store.
- `Marketplace` (file `marketplace.dfy`), `Payment` (file `payment.dfy`) and
  `CartPage` (file `cart_page.dfy`): the pages.

A result of `NaN` is `None`. Numbers are unbounded integers.

## Model

| member | source | states |
|---|---|---|
| Marketplace.MatchesSearch | src/pages/Marketplace.tsx:98-99 | The search test: the lower-cased term is in the lower-cased name or brand. It is defined from `ToLower` and `Includes`; FilterSound and SearchIgnoresCase characterise it. |
| Marketplace.MatchesCategory | src/pages/Marketplace.tsx:100 | The category test: "All", or exact equality with the product's category. FilterSound and CategoryIsCaseSensitive characterise it. |
| Marketplace.Keep | src/pages/Marketplace.tsx:101 | The filter's predicate: both tests pass. FilterProducts, FilterComplete and FilterSound state what it selects. |
| Marketplace.InitialStateKeepsEvery | src/pages/Marketplace.tsx:95-101 | The initial search term `""` (line 11) is in every name, and the initial category "All" (line 95) accepts every category, so every product passes. |
| Marketplace.FilterProducts | src/pages/Marketplace.tsx:97-102 | The listed products are a subsequence of the catalogue: order is kept and nothing is added. Every listed product passes the search and category tests. A product that passes appears as often as it does in the catalogue; one that fails does not appear. |
| Marketplace.FilterComplete | src/pages/Marketplace.tsx:97-102 | Every catalogue entry that passes both tests is listed. |
| Marketplace.FilterSound | src/pages/Marketplace.tsx:98-100 | A listed product comes from the catalogue. Its category is the selected one, or the selection is "All". The lower-cased term occurs in its lower-cased name or brand. |
| Marketplace.InitialFilterListsAll | src/pages/Marketplace.tsx:95-102 | With the initial state (empty search term from line 11, category "All") the filter lists the whole catalogue, unchanged. |
| Marketplace.SearchIgnoresCase | src/pages/Marketplace.tsx:98-99 | Two search terms that differ only in letter case list the same products. |
| Marketplace.CategoryIsCaseSensitive | src/pages/Marketplace.tsx:100 | The category comparison does not fold case. Selecting "immunity" lists nothing when every product's category is "Immunity". |
| Marketplace.ShowsNoResults | src/pages/Marketplace.tsx:237 | "No products found" is shown exactly when no catalogue entry passes both tests. |
| JsText.ToLower | src/pages/Marketplace.tsx:98 | `toLowerCase` keeps the length and maps each upper-case letter to its lower-case letter. Every other character is kept. |
| JsText.ToLowerIdempotent | src/pages/Marketplace.tsx:98-99 | Lower-casing twice is the same as lower-casing once. |
| JsText.Includes | src/pages/Marketplace.tsx:98 | `s.includes(t)` holds exactly when `t` occurs in `s` at some position. |
| JsText.RemoveFirst | src/pages/Payment.tsx:220 | `replace` with a one-character pattern leaves a string without that character unchanged. Otherwise it removes exactly the character's first occurrence. |
| JsText.RemoveFirstSplit | src/pages/Payment.tsx:220 | When `c` does not occur in `a`, removing the first `c` from `a + c + b` gives `a + b`. |
| JsNumber.TrimStart | src/pages/Payment.tsx:220 | `parseInt` drops only white space (the StrWhiteSpaceChar set), and all of the leading white space. |
| JsNumber.DigitRun | src/pages/Payment.tsx:220 | `parseInt` reads the longest prefix of digits of the radix. |
| JsNumber.ParseIntOfIntToString | src/pages/Cart.tsx:112 | `parseInt` reads `String(n)` back as `n`, also when text follows that does not start with a digit. |
| JsNumber.ParseInt | src/pages/Payment.tsx:220 | `parseInt` with no radix: skip leading white space, read an optional sign, read a `0x` prefix as radix 16, then the longest digit run. No digits gives NaN. TrimStart, DigitRun, ParseIntSkipsWhiteSpace, ParseIntNaN and ParseIntOfIntToString characterise it. |
| JsNumber.ParseIntSkipsWhiteSpace | src/pages/Payment.tsx:220 | Leading white space does not change what `parseInt` reads. |
| JsNumber.ParseIntNaN | src/pages/Cart.tsx:112 | Text that, after its leading white space, starts with neither a sign nor a decimal digit is NaN. An empty field is one such text. |
| Payment.NumericPrice | src/pages/Payment.tsx:220 | The numeric price: `parseInt` after removing the first "₹" and then the first ",". NumericPriceBelowLakh and NumericPriceTwoCommas characterise it on every catalogue price below one crore. |
| Payment.NumericPriceAfterRupee | src/pages/Payment.tsx:220 | A price starting with "₹" loses exactly that sign, then its first comma, and `parseInt` reads the rest. |
| Payment.LineAmount | src/pages/Payment.tsx:220 | A line amount is NaN exactly when the price parses to NaN. Otherwise it is the parsed price times the quantity. |
| Payment.NumericPriceBelowLakh | src/pages/Payment.tsx:220 | Every whole-rupee price below one lakh, written in Indian grouping, parses to its exact amount. |
| Payment.NumericPriceTwoCommas | src/pages/Payment.tsx:220 | Every price from one lakh up to one crore has two commas and parses to the amount divided by 1000, rounded down. Only the first comma is removed. |
| Payment.OneLakhPriceString | src/pages/Payment.tsx:220 | One lakh is written "₹1,00,000". Together with NumericPriceTwoCommas, that string reads as 100. |
| Payment.NumericPriceWithComma | src/pages/Payment.tsx:220 | "₹2,999" reads as 2999. |
| Payment.NumericPriceWithoutComma | src/pages/Payment.tsx:220 | "₹299" reads as 299. |
| Payment.LineAmountBelowLakh | src/pages/Payment.tsx:220 | An item priced below one lakh shows its price times its quantity. |
| Payment.Tax | src/pages/Payment.tsx:239 | The tax is within one half of 18 % of the subtotal, with halves rounded up (the `Math.round` rule). |
| Payment.TaxIsNearest | src/pages/Payment.tsx:239 | The rounding bound determines the tax: no other integer meets it. |
| Payment.TaxBounds | src/pages/Payment.tsx:239 | On a non-negative subtotal the tax is non-negative and at most a fifth of the subtotal plus one. |
| Payment.GrandTotal | src/pages/Payment.tsx:248 | Total minus subtotal is exactly the tax. The total is 118 % of the subtotal, rounded. It is at least the subtotal when the subtotal is non-negative. |
| Payment.DetailForms | src/pages/Payment.tsx:111-167 | Exactly one detail form is shown when the method is card, upi or netbanking, and it is that method's own form. No form is shown for any other value. |
| Payment.PaymentPage.constructor | src/pages/Payment.tsx:16-17 | The page starts with "card" selected (one of the three methods) and not processing. With items in the cart it shows the card form. |
| Payment.PaymentPage.View | src/pages/Payment.tsx:39-258 | The "No items to pay for" card is shown exactly when the cart is empty. Otherwise the page shows the selected method's form (exactly one form when the method is one of the three) and one line amount per item. It also shows the subtotal, its tax and their sum. The pay button is disabled exactly while processing and shows either "Processing..." or the total. |
| Payment.PaymentPage.CanPay | src/pages/Payment.tsx:252-256 | The pay button can be clicked exactly when the cart has items and no payment is running. |
| Payment.PaymentPage.SelectMethod | src/pages/Payment.tsx:90-106 | The radio group reports one of card, upi and netbanking. Choosing it changes `paymentMethod` and nothing else, and the method stays one of the three. |
| Payment.PaymentPage.StartPayment | src/pages/Payment.tsx:28 | The handler first sets processing and changes nothing else. |
| Payment.PaymentPage.FinishPayment | src/pages/Payment.tsx:34-35 | Afterwards the cart is empty, processing is off, the method is kept, and the page shows "No items to pay for". |
| Payment.PaymentPage.HandlePayment | src/pages/Payment.tsx:27-37 | While the payment runs, the button is disabled and reads "Processing...", the total is subtotal plus tax, and one detail form is shown. Afterwards the cart is cleared, processing is off and the method is kept. |
| Payment.PaymentPage.ClickPay | src/pages/Payment.tsx:252-258 | A click starts the payment exactly when the button is enabled. Otherwise nothing changes. |
| CartPage.DecrementDisabled | src/pages/Cart.tsx:105 | The minus button is disabled at quantity 1 or below. Request shows that a click on it then sends nothing, and that an enabled click asks for at least 1. |
| CartPage.TypedQuantity | src/pages/Cart.tsx:112 | The result of `parseInt(v) \|\| 1` is never 0. A non-zero parsed value is kept, negative ones too. NaN and 0 become 1. |
| CartPage.Request | src/pages/Cart.tsx:101-128 | Every request targets the clicked item's id. A click does nothing exactly when it is a minus at quantity 1 or below. An enabled minus asks for quantity − 1, which is at least 1. Plus asks for quantity + 1. Typing asks for the typed quantity. The bin asks to remove the item. |
| CartPage.DecrementUndoesIncrement | src/pages/Cart.tsx:104-119 | After plus is applied, minus asks for the quantity from before the plus. |
| CartPage.TypedQuantityOfNumber | src/pages/Cart.tsx:112 | Typing the decimal form of a non-zero number asks for exactly that number. |
| CartPage.TypedQuantityOfEmpty | src/pages/Cart.tsx:112 | An empty field (NaN) asks for 1. |
| CartPage.TypedQuantityOfZero | src/pages/Cart.tsx:112 | "0" asks for 1. |
| CartPage.TypedQuantityOfMinusTwo | src/pages/Cart.tsx:112 | "-2" asks for −2: negative numbers are not clamped. |
| CartPage.Checkout | src/pages/Cart.tsx:20-24 | Checkout leads to the payment page exactly when the cart has items. |
| CartPage.View | src/pages/Cart.tsx:51-168 | The empty-cart view is shown exactly when there are no items. Otherwise there is one line per item, and each line's minus is disabled exactly when a click on it would do nothing. The items amount and the total both equal the store's total. The checkout button is enabled. |
| CartPage.CheckoutButtonLeadsToPayment | src/pages/Cart.tsx:162-166 | Wherever the checkout button is shown it is enabled, and it leads to the payment page. |
| CartPage.CartTotalVersusPaymentTotal | src/pages/Cart.tsx:158 | The cart's total adds no tax. It matches the payment page's total exactly when the rounded tax is 0, i.e. for subtotals from −2 to 2. |

## Left out

- `src/integrations/supabase/types.ts`: compile-time type mappings with no behaviour of their own.
- `src/pages/Index.tsx`: the sign-in session lookup and subscription are network I/O, and the rest is static content.
- `src/pages/WellnessJourney.tsx`: static content whose prices are never computed.
- The cart store (`useCart`) is not part of this model.
  - Its items and `totalPrice` are inputs to the pages.
  - How it computes totals or applies requests is not modelled.
  - After `clearCart` the items are taken to be empty, and the store's new total is a parameter (`clearedTotal`).
- The item count `totalItems`, shown in the Cart header and summary (src/pages/Cart.tsx:48, 148), is cart-store data that is only displayed. The item name and price text on each payment line are only displayed as well.
- Payment.PaymentPage.HandlePayment: the handler is modelled as one step. During the two-second wait the method radio group (src/pages/Payment.tsx:90) and "Back to Cart" stay clickable, so a method change during the wait is not modelled. "The method is kept" describes only what the handler itself does.
- Currency formatting with `Intl.NumberFormat` is a library call. The model keeps the amounts, not their formatted text.
- The two-second `setTimeout`, the toasts and all `navigate` calls are timing and side effects.
  - The model keeps the page state before, during and after the payment.
  - Checkout is represented by the route it leads to.
- The star rating is a floating-point number and is not in `Product`.
- JsText.ToLower: lower-cases ASCII letters only, not the full Unicode case mapping of `toLowerCase`.
- Payment.Tax: computes 18 % with exact integer arithmetic, so the binary rounding of the floating-point constant `0.18` is not modelled.
- JsNumber.ParseInt has no precision limit.
  - JavaScript numbers lose precision above 2^53.
  - `parseInt` of a very long digit string gives a rounded or infinite value.
  - The model gives the exact integer.
- JsNumber.IntToString writes every integer in plain decimal, whereas `String(n)` switches to exponent form from 10^21 upwards.
- The JSX markup, styling, the static product array and the billing-address fields are left out. The filter is proved for every product list.
