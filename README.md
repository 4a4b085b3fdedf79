# Orderrred storefront — a Dafny model

Orderrred is a small single-page food storefront. A customer adds catalog
items to a cart and adjusts quantities on the cart page. At checkout they
enter a first name, a last name and a contact, and pick cash or PayPal.
The order is then posted as one embed message to a Discord webhook. On
success the cart is emptied and a confirmation page is shown; on failure
nothing changes.

This project models:

- the cart updaters, the item count and the subtotal/taxes/total of
  `App.tsx`;
- the four-page navigation;
- the checkout form's validation order and its busy flag;
- the application's order submission;
- the message that `sendOrderToDiscord` builds in
  `services/discordService.ts`, and how it turns the webhook's answer into
  success or an error.

Modules, one per file:

| file | module | models |
|---|---|---|
| catalog.dfy | `Catalog` | `FoodItem`, `CartItem` (`Line`), `PaymentMethod`, `OrderDetails`; the `FOOD_ITEMS` catalog |
| cart.dfy | `Cart` | the pure functions `handleAddToCart` and `handleUpdateQuantity` hand to `setCart`; `cartCount`, subtotal, taxes, totals |
| navigation.dfy | `Navigation` | pages, header titles, the back rule and the page-changing buttons |
| text.dfy | `Text` | integer printing in template literals, `toFixed(2)` on amounts exact in cents, `join`/`split` on one character — each with its parser |
| order_notifier.dfy | `OrderNotifier` | the untaxed total, the manifest, the payload, and the outcome of the send |
| storefront.dfy | `Storefront` | the `App` component's state (class `Shop`) and the `CheckoutPage` form (class `CheckoutForm`) |

Money is integer cents: a catalog price of 1.50 is `150`. Sums and
manifests are exact. The app's taxes and totals are `real`, which is exact
too; `TAX_RATE` is `0.1`. The webhook request is a `Transport` value: either
the request was rejected with a message, or a response arrived with its
`ok` flag.

Behaviours of the code worth knowing:

- The message's total is the untaxed subtotal (`services/discordService.ts:6`).
  The checkout page shows subtotal plus tax (`App.tsx:122-125`).
  `OrderNotifier.OrderTotalOmitsTax` proves the two differ whenever the untaxed total is not zero.
- Validation checks first and last name separately, without trimming (`App.tsx:129`).
- The message has five fields, named `Prénom`, `Nom`, `Contact`, `Paiement`, `Total`.
  Only `Contact` is not inline (`services/discordService.ts:19-23`).
- Nothing stops a second submission while one is in flight, except the
  disabled button (`App.tsx:216`).
- The back button goes to a fixed target; there is no history.

## Model

| member | source | states |
|---|---|---|
| Catalog.CatalogShape | App.tsx:7-16 | `FoodItems`, the fixed catalog: eight items with ids 1 to 8 in order, prices 150 to 850 cents in steps of 100, and no image |
| Catalog.LabelRoundTrip | types.ts:12-15 | each payment method's label (`Espèces`, `PayPal`) reads back as that method, so the two labels are distinct |
| Cart.Find | App.tsx:240 | `find` by id: nothing is found exactly when no line has the id; otherwise the result is the first line with that id |
| Cart.Bumped | App.tsx:242-244 | the `map` keeps the length and increments the quantity of exactly the lines with the id, leaving every other line as it was |
| Cart.WithQuantity | App.tsx:255 | the `map` keeps the length and sets the quantity of exactly the lines with the id, leaving every other line as it was |
| Cart.Without | App.tsx:253 | after the `filter` no line has the id; an absent id leaves the cart as it was |
| Cart.WithoutMembers | App.tsx:253 | a line survives the `filter` exactly when it was in the cart and has another id |
| Cart.AddToCart | App.tsx:238-248 | a present id yields the cart with that id's line incremented; an absent id appends one line of quantity 1 at the end |
| Cart.AddExisting | App.tsx:240-245 | on a cart with distinct ids, adding an item at position k bumps the quantity at k by one and leaves every other line and the order unchanged |
| Cart.UpdateQuantity | App.tsx:250-257 | quantity ≤ 0 drops exactly the lines with the id; quantity > 0 sets their quantity and keeps the length; an absent id changes nothing |
| Cart.UpdateExisting | App.tsx:252-255 | on a cart with distinct ids, with the line at position k: q ≤ 0 removes position k and keeps the order of the rest; q > 0 replaces only that line's quantity |
| Cart.WithoutAt | App.tsx:253 | with distinct ids, filtering out the id at position k is the cart with position k cut out |
| Cart.AddPreservesValid | App.tsx:238-248 | an add keeps ids distinct and quantities at least 1 |
| Cart.UpdatePreservesValid | App.tsx:250-257 | a quantity update, with any requested quantity, keeps ids distinct and quantities at least 1 |
| Cart.CutValid | App.tsx:253 | cutting one line out of a valid cart, as the filter does for a present id, leaves a valid cart |
| Cart.ReplayValid | App.tsx:236-257 | any sequence of adds and updates from a valid cart, the initial empty one included, ends in a valid cart |
| Cart.AddTotals | App.tsx:270 | an add raises `cartCount` by exactly one, and the subtotal by the unit price of the line it bumps or appends |
| Cart.AddQuantityOf | App.tsx:238-248 | an add raises the added id's quantity by one and leaves every other id's quantity alone |
| Cart.AddAllCounts | App.tsx:236-248 | after a run of adds, each id's quantity has grown by the number of times it was added, and the count by the number of adds |
| Cart.AddsFromEmpty | App.tsx:236-248 | starting from the empty cart, a line's quantity is the number of adds of its id |
| Cart.QuantityOfLine | App.tsx:270 | with distinct ids, an id's share of the count is its line's quantity, or 0 if absent |
| Cart.UpdateCount | App.tsx:250-257 | updating a present line changes the count by the new quantity minus the old, or removes the old quantity when q ≤ 0 |
| Cart.CountCut | App.tsx:253 | cutting out one line takes exactly its quantity off the count |
| Cart.Count | App.tsx:270 | `cartCount`, the sum of the quantities; with every quantity at least 1 it is at least the number of lines |
| Cart.Subtotal | App.tsx:71 | the sum of price × quantity in cents; never negative when every quantity is at least 1 |
| Cart.Taxes | App.tsx:72 | the cart page's taxes are exactly a tenth of the subtotal, between 0 and the subtotal when the subtotal is not negative |
| Cart.CartPageTotal | App.tsx:73 | the cart page's total is exactly 110% of the subtotal |
| Cart.CheckoutTotal | App.tsx:122-125 | the checkout page computes its total on its own from the cart, and it equals the cart page's total |
| Cart.CountConcat | App.tsx:270 | the count of two carts placed end to end is the sum of their counts |
| Cart.SubtotalConcat | App.tsx:71 | the subtotal of two carts placed end to end is the sum of their subtotals |
| Cart.QuantityOfConcat | App.tsx:270 | an id's quantity across two carts placed end to end is the sum over each |
| Cart.ReplaceLine | App.tsx:270 | replacing one line shifts count, subtotal and that id's quantity by the new line's contribution minus the old's |
| Cart.CountBounds | App.tsx:270 | with quantities ≥ 1, `cartCount` is at least the number of lines and is positive exactly when the cart is non-empty |
| Cart.TotalsAgree | App.tsx:72-73 | the cart page's total is subtotal + subtotal × TAX_RATE, i.e. 1.1 × subtotal, and the checkout page's total equals it |
| Navigation.Title | App.tsx:24-29 | the header title of each page, never empty: Nos produits, Mon Panier, Paiement, Confirmation |
| Navigation.TitlesDistinct | App.tsx:24-29 | each page has its own header title |
| Navigation.Back | App.tsx:33-34 | no back button on products; back from checkout goes to the cart, from the cart or success to products |
| Navigation.BackReachesProducts | App.tsx:33-34 | at most two presses of back reach the products page from anywhere |
| Navigation.TargetRules | App.tsx:33-44 | no button leads to the success page; only "finalize", beside a non-empty cart, leads to checkout; the cart icon always leads to the cart; "back to home" leads to products |
| Navigation.Target | App.tsx:33-44 | the page each button leads to, or none where the page does not show it: header back and cart icon everywhere, "view cart" on products with a positive count (60-62), "finalize" and "continue shopping" on the cart page (79, 107-108), "back to home" on success (230); no target is the success page, and checkout is reached only by "finalize" with a non-empty cart |
| Navigation.ViewCartShown | App.tsx:60-62 | on a valid cart the products page's "view cart" button shows exactly when the cart has a line |
| Text.NatToStringRoundTrip | services/discordService.ts:8 | a printed natural number is a non-empty run of digits, with no leading zero, whose value is the number |
| Text.IntToStringRoundTrip | services/discordService.ts:8 | a printed integer parses back to itself, and the literal ends where the next non-digit starts |
| Text.LeadingDigitsOf | services/discordService.ts:8 | the digit run at the head of digits followed by a non-digit is exactly the digits |
| Text.ToFixed2RoundTrip | services/discordService.ts:23 | for an amount exact in cents, the two-decimal text denotes exactly that amount |
| Text.NegativeRoundTrip | services/discordService.ts:23 | a negative amount's text, a minus sign before the magnitude, reads back as that amount |
| Text.PositiveRoundTrip | services/discordService.ts:23 | a non-negative amount's text, the magnitude alone, reads back as that amount |
| Text.MagnitudeRoundTrip | services/discordService.ts:23 | the unsigned two-decimal text reads back as its number of cents |
| Text.SplitJoin | services/discordService.ts:8 | splitting a non-empty list of lines joined on a separator none of them holds gives the lines back |
| Text.SplitPiece | services/discordService.ts:8 | a text without the separator splits into itself alone |
| Text.SplitAfterPiece | services/discordService.ts:8 | a separator-free piece followed by the separator splits off as the first piece |
| Text.JoinEmpty | services/discordService.ts:8 | when no line is empty, the joined text is empty exactly when there are no lines |
| OrderNotifier.OrderTotal | services/discordService.ts:6 | the message's total, price × quantity summed by a left fold with no tax, is never negative for a cart whose quantities are at least one |
| OrderNotifier.OrderTotalIsSubtotal | services/discordService.ts:6 | the message's total, folded from the left over price × quantity, is the cart's subtotal |
| OrderNotifier.OrderTotalOmitsTax | services/discordService.ts:6 | the checkout page's total is the message's total plus the taxes, so the two differ whenever the order is not free |
| OrderNotifier.ManifestLine | services/discordService.ts:8 | one item's line ends with `x ` and the item's name, after at least one character of printed quantity |
| OrderNotifier.Manifest | services/discordService.ts:8 | the embed's description begins with the first item's line |
| OrderNotifier.ManifestLineRoundTrip | services/discordService.ts:8 | a manifest line is non-empty and reads back as its quantity and name |
| OrderNotifier.ManifestLineNoNewline | services/discordService.ts:8 | a manifest line holds no newline when the item's name holds none, since the printed quantity never does |
| OrderNotifier.ManifestEmpty | services/discordService.ts:8 | the description is empty exactly when there are no items |
| OrderNotifier.ParseLinesRoundTrip | services/discordService.ts:8 | the manifest lines read back, one per item and in item order, as each item's quantity and name |
| OrderNotifier.ManifestRoundTrip | services/discordService.ts:8 | when no name holds a newline, the description splits into exactly one line per item, in order, and parses back into each item's quantity and name |
| OrderNotifier.BuildPayload | services/discordService.ts:10-31 | the payload holds one embed with five fields, and the last field shows the cart's untaxed subtotal |
| OrderNotifier.PayloadShape | services/discordService.ts:10-31 | one embed with the fixed title, colour 0xF97316 and footer, the manifest as description, and fields Prénom, Nom, Contact, Paiement, Total, all inline but Contact |
| OrderNotifier.PayloadRoundTrip | services/discordService.ts:10-31 | reading the message back yields the names, the contact, the payment method, the untaxed total and every line's quantity and name |
| OrderNotifier.ReadEmbedOf | services/discordService.ts:14-29 | an embed with its fixed parts in place and parseable values reads back field by field |
| OrderNotifier.TotalTextRoundTrip | services/discordService.ts:23 | the Total field, `**` + two decimals + `€**`, reads back as the total in cents |
| OrderNotifier.UnquoteRoundTrip | services/discordService.ts:21 | the Contact field is the contact wrapped in backticks, and unwrapping gives it back |
| OrderNotifier.SendOrder | services/discordService.ts:5-44 | the posted message is the built payload; the call completes exactly on an ok response, throws the fixed message on a non-ok one and passes on a rejected request's error |
| Storefront.Validate | App.tsx:129-136 | a missing first or last name aborts first; then a missing contact; only a form with all three filled yields the details as entered |
| Storefront.Alert | App.tsx:130-134 | the alert for a failed check is never empty, and the name alert is shown exactly for a missing name, the contact alert otherwise |
| Storefront.Shop.constructor | App.tsx:235-236 | the app opens on products with an empty cart, which is valid and consistent |
| Storefront.Shop.AddToCart | App.tsx:238-248 | the cart becomes the add-or-increment of the old cart, stays valid and its count rises by one |
| Storefront.Shop.UpdateQuantity | App.tsx:250-257 | the cart becomes the updated old cart and stays valid |
| Storefront.Shop.Press | App.tsx:33-41 | the page becomes the pressed button's target when the page shows that button, else stays; a press never reaches success, and keeps checkout reachable only with a non-empty cart |
| Storefront.Shop.CartCount | App.tsx:270 | the header's count is at least the number of lines and positive exactly when the cart is non-empty |
| Storefront.Shop.SubmitOrder | App.tsx:259-268 | the message posted is built from the cart at submission; on delivery the cart is empty and the page is success; on failure both are unchanged |
| Storefront.CheckoutForm.constructor | App.tsx:116-120 | the form opens with cash selected, empty fields and not busy |
| Storefront.CheckoutForm.BeginSubmit | App.tsx:127-137 | validation of the current fields; a valid form turns busy, an invalid one changes nothing |
| Storefront.CheckoutForm.EndSubmit | App.tsx:144 | the form is no longer busy |
| Storefront.CheckoutForm.Submit | App.tsx:127-145 | an invalid form sends nothing and leaves cart, page and busy flag alone; a valid one is busy when the order is sent (the ghost result `busyAtSend`, set from `isLoading` just before the send), posts the message for the cart at submission, is not busy afterwards, and the cart and page follow the send's outcome |

## Left out

- The `fetch` POST, the webhook URL, the headers and `JSON.stringify`
  (`services/discordService.ts:33-39`) are I/O. The request's result is the `Transport` parameter.
- The embed's send-time timestamp (`services/discordService.ts:25`) reads the clock, so `Embed` has no timestamp.
- `alert` and `console.error` are I/O. `Storefront.Alert` names the two validation messages.
- Binary floating point: prices are exact cents and taxes are exact reals.
  `toFixed(2)` is modelled only for amounts exact in cents (`Text.ToFixed2`).
  The app's displayed tax and total strings (`App.tsx:93`, `App.tsx:104-106`, `App.tsx:215`) are not modelled, because they round a binary float.
- React rendering, styling, icons, memoisation and the search box (`App.tsx:53`) are presentation only.
  The buttons that change page are modelled by `Navigation.Target`.
  The item card only calls `onAddToCart`, and `Storefront.Shop.AddToCart` models that call.
- `components/OrderModal.tsx` is never imported. It is not part of this model.
- The field setters of the checkout form (`App.tsx:156-201`) are plain assignments to the `CheckoutForm` fields.
- `types.ts`'s `OrderDetails.fullName` disagrees with the call sites. `OrderDetails` has the first and last name that `App.tsx:138-143` passes.
- `Storefront.Shop.SubmitOrder` is one atomic step. The interleaving of other events during the awaited send is not modelled.
  That includes the closure capturing the cart of the render in which the order button was pressed.
  `CheckoutForm.BeginSubmit` and `EndSubmit` expose the busy window instead.
- Storefront.CheckoutForm.Submit does not model rejecting a second submission while busy. The source has no such guard besides the disabled button (`App.tsx:216`).
- The handlers do not check which page is shown. `Storefront.Shop.AddToCart` and `UpdateQuantity` keep page consistency only on the page that shows them.
- JavaScript numbers are unbounded integers here. Quantities and cent sums never overflow or lose precision in the model.
