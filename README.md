# Cava de Oro storefront: cart and checkout

This project models the shopping cart and checkout of the storefront's single
page component `Home` (`src/app/page.tsx`) in Dafny, and proves what that code
promises about them.

- **Text** covers the string operations the component relies on:
  - decimal rendering and parsing of whole numbers;
  - `toFixed(2)` of a whole number;
  - `join`, which the component calls, and `split`, which it does not:
    `split` is the reference inverse the joins are proved against;
  - `trim`, with ECMAScript's set of whitespace characters.
- **Catalog** holds the product record the cart reads and the five catalog
  bottles with their real ids, names and price tags. It also parses a price
  tag such as `"S$150"` into whole Singapore dollars.
- **Cart** is the cart store. The cart is an insertion-ordered sequence of
  lines.
  - `addToCart`, `removeFromCart` and `updateQuantity` are the pure functions
    the component hands to `setCart`.
  - `getSubtotal` and `getTotalItems` are `reduce` folds over the lines,
    each proved equal to a reference sum. `getShippingCost` is a test on the
    cart's length. `getTotalPrice` formats subtotal plus shipping with two
    decimals, and is proved to read back as that sum.
  - The invariant: one line per product id, and every quantity at least 1.
- **Checkout** models the nine-field checkout form: a single-field update
  (`handleCheckoutFormChange`) and the presence-only check
  (`validateCheckoutForm`).
- **Order** holds the email statuses, the payment choices, and the
  order-notification parameters composed from the form and the cart.
- **Storefront** is the component itself: `class Home`.
  - Its fields are the component's state variables.
  - Its methods are the handlers. Each handler's contract gives the whole new
    state as an update of the old one, so everything a handler leaves alone
    is stated too.
  - A ghost log, `steps`, records the order the workflow acts in: processing
    starts, the email goes out, the payment prompt appears, then the order
    completes, the cart is cleared and processing ends.

Prices are whole dollars (`nat`), read from whole-dollar tags. The
component's floating-point sums of such prices are exact while they stay
below 2^53, about nine million billion dollars. On a whole
number below 10^21, `toFixed(2)` is the number's digits followed by `.00`;
from 10^21 on it switches to exponent form, which the model does not follow.

The send through the messaging service is modelled as a parameter,
`delivered`, that says whether the service accepted the message.

`handleCompleteOrder` suspends twice: once while the messaging service
answers, and once during a one-second delay. Other handlers run during those
waits: the form fields, the payment buttons, the checkout dialog's own close
and, once checkout is closed, the cart's buttons and add-to-cart. The model
therefore splits `handleCompleteOrder` at its awaits into three methods, and
any handler may be called between them:

- `SubmitOrder`: validation, then processing starts and the email goes out.
- `EmailAnswered`: the service's answer sets the email status.
- `FinishOrder`: the payment prompt, completion and emptying the cart.

What the suspended call keeps is a `PendingOrder`: the email it sent, plus
the payment method and cart of the render it started in. After the delay it
reads those again, not the current state. Only the complete-order button is
guarded while `isProcessing` is set (line 1181), so only `SubmitOrder`
requires `!isProcessing`. `CompleteOrder` is the three stretches run back to
back, for when no other handler runs in between. The scenario methods at
the end of `Storefront` show two effects of running a handler during the
waits:

- picking PayPal still brings up the PayNow prompt while PayPal stays
  selected;
- a bottle added to the cart is wiped when the order completes and never
  reaches the email.

## Model

| member | source | states |
|---|---|---|
| Text.NatToString | src/app/page.tsx:473 | the rendering of a whole number is a non-empty digit string, with no leading zero unless the number is 0 |
| Text.DigitsOfNatToString | src/app/page.tsx:401 | reading back the rendered digits of any whole number gives that number |
| Text.NatToStringOfDigits | src/app/page.tsx:401 | rendering the value of a canonical digit string gives the same string back |
| Text.IntToStringReadBack | src/app/page.tsx:473 | the decimal rendering of any integer, with a minus sign when negative, reads back as that integer |
| Text.Fixed2ReadBack | src/app/page.tsx:493-497 | `toFixed(2)` of a whole number ends in ".00", and what comes before reads back as the number |
| Text.Join | src/app/page.tsx:494 | the joined string is as long as the parts together plus one separator fewer than there are parts |
| Text.SplitJoin | src/app/page.tsx:494 | splitting a newline-joined list at its separator gives back the list, when no part holds the separator |
| Text.Trim | src/app/page.tsx:516 | `trim` leaves the empty string exactly when the input is all whitespace; otherwise the first and last characters kept are not whitespace |
| Catalog.ParsePriceTag | src/app/page.tsx:401 | every whole-dollar price written as an `S$` tag is well formed and parses back to that price |
| Catalog.TagOfParsePrice | src/app/page.tsx:401 | the price parsed from a well-formed tag without leading zeros, written back as a tag, is that tag |
| Catalog.AnejoPrice | src/app/page.tsx:268 | the Añejo's tag is well formed and parses to 150 |
| Catalog.ExtraAnejoPrice | src/app/page.tsx:290 | the Extra Añejo's tag is well formed and parses to 215 |
| Catalog.CristalinoPrice | src/app/page.tsx:312 | the Cristalino's tag is well formed and parses to 645 |
| Catalog.BlackEditionPrice | src/app/page.tsx:334 | the Black Edition's tag is well formed and parses to 1840 |
| Catalog.MiniCollectionPrice | src/app/page.tsx:356 | the mini collection's tag is well formed and parses to 210 |
| Catalog.CatalogPricesWellFormed | src/app/page.tsx:247-358 | every catalog product's price tag is well formed, so each can go into the cart |
| Catalog.CatalogIdsDistinct | src/app/page.tsx:247-358 | the five product ids are pairwise distinct |
| Cart.NewLine | src/app/page.tsx:402-409 | the new line carries the product's id, quantity 1 and the parsed price, and forms a valid one-line cart; when the tag's digits have no leading zero, the price written back as a tag is the product's tag |
| Cart.IndexOf | src/app/page.tsx:412 | `find` by id gives the first line carrying that id |
| Cart.MapQuantity | src/app/page.tsx:423-427 | the `map` keeps the length and every id, leaves lines of other ids equal, and gives lines with the id the new quantity (one more, or the number set) and nothing else new |
| Cart.Remove | src/app/page.tsx:447 | removal never lengthens the cart |
| Cart.RemoveMembers | src/app/page.tsx:446-448 | the `filter` keeps exactly the lines whose id differs |
| Cart.AddItem | src/app/page.tsx:400-439 | after an add the product is in the cart, and the cart grows by one line exactly when the id was new |
| Cart.AddItemValid | src/app/page.tsx:400-439 | an add keeps one line per id and every quantity at least 1 |
| Cart.UpdateQuantity | src/app/page.tsx:450-462 | a quantity of zero or less is exactly `removeFromCart`, and a positive one keeps the length |
| Cart.UpdateQuantityValid | src/app/page.tsx:450-462 | an update keeps one line per id and every quantity at least 1 |
| Cart.MapQuantityAt | src/app/page.tsx:423-427 | with unique ids, the map changes exactly the one line with the id, in place |
| Cart.MapQuantityAbsent | src/app/page.tsx:455-461 | mapping an id not in the cart leaves it unchanged |
| Cart.AddExisting | src/app/page.tsx:411-428 | adding a product already in the cart raises that line's quantity by exactly 1; price, names, position and every other line stay as they were |
| Cart.AddNew | src/app/page.tsx:400-438 | adding a new product appends one line at the end with its id, names, image, quantity 1 and the parsed price |
| Cart.RemoveAppend | src/app/page.tsx:447 | removal distributes over concatenation, so the remaining lines keep their order |
| Cart.RemoveAbsent | src/app/page.tsx:447 | removing an id not in the cart changes nothing |
| Cart.RemoveIdempotent | src/app/page.tsx:447 | removing the same id twice is the same as removing it once |
| Cart.RemoveAt | src/app/page.tsx:446-448 | with unique ids, removal cuts out exactly the id's line and keeps the lines before and after it in order |
| Cart.RemoveValid | src/app/page.tsx:446-448 | removal preserves unique ids and positive quantities |
| Cart.UpdateQuantityAt | src/app/page.tsx:455-461 | a positive update sets only that line's quantity, in place |
| Cart.UpdateQuantityAbsent | src/app/page.tsx:450-462 | updating an id not in the cart leaves it unchanged, whatever the quantity |
| Cart.AddAllToLine | src/app/page.tsx:411-428 | adding k more of a line's product to a one-line cart raises that line's quantity by k |
| Cart.RepeatedAdd | src/app/page.tsx:400-439 | k adds of one product into an empty cart give a single line with quantity k, carrying the first add's price and names |
| Cart.ReduceIsSum | src/app/page.tsx:465 | the left-fold `reduce` from any start value is that value plus the reference sum |
| Cart.Subtotal | src/app/page.tsx:464-466 | the subtotal is the sum of price times quantity over the lines |
| Cart.TotalItems | src/app/page.tsx:476-478 | the item count is the sum of the quantities |
| Cart.ShippingCost | src/app/page.tsx:468-470 | shipping is the flat 20 exactly when the cart has a line, and 0 exactly when it is empty |
| Cart.TotalPriceReadBack | src/app/page.tsx:472-474 | `getTotalPrice` ends in ".00", and the digits before it read back as subtotal plus shipping |
| Cart.TotalAmountCases | src/app/page.tsx:468-474 | shipping is 20 for a non-empty cart and 0 for an empty one; the total is subtotal plus shipping, and the empty cart's total is "0.00" |
| Cart.ValidTotals | src/app/page.tsx:464-478 | with positive quantities the subtotal is not negative, the item count is at least the number of lines, and it is 0 exactly for the empty cart |
| Cart.ReplaceLineTotals | src/app/page.tsx:464-478 | giving one line a new quantity changes the subtotal by its price times the change and the item count by the change |
| Cart.AddItemTotals | src/app/page.tsx:400-466 | each add raises the item count by 1 and the subtotal by one unit price: the existing line's stored price, or the parsed tag for a new line |
| Cart.RemoveTotals | src/app/page.tsx:446-478 | removing a line takes exactly its amount off the subtotal and its quantity off the item count |
| Cart.UpdateQuantityTotals | src/app/page.tsx:450-478 | setting a positive quantity changes the subtotal by the price times the change in quantity, and the item count by the change |
| Cart.TwoAnejos | src/app/page.tsx:400-478 | the Añejo added twice gives one line of quantity 2, subtotal 300, total 320 and total price "320.00" |
| Cart.SingleLineSubtotal | src/app/page.tsx:464-466 | a one-line cart's subtotal is that line's price times its quantity |
| Checkout.Set | src/app/page.tsx:510-512 | the edited field holds the new value and every other field is unchanged |
| Checkout.FormExtensionality | src/app/page.tsx:46-56 | two forms that agree on all nine fields are equal |
| Checkout.SetLaws | src/app/page.tsx:510-512 | writing back a field's own value changes nothing, and a second write to a field replaces the first |
| Checkout.Validate | src/app/page.tsx:514-517 | an accepted form has something in every field other than notes (the exact condition is `ValidateIff`) |
| Checkout.ValidateIff | src/app/page.tsx:514-517 | the form is accepted exactly when each of the eight fields other than notes holds a character that is not whitespace |
| Checkout.ValidateIgnoresNotes | src/app/page.tsx:515 | the notes field never changes the verdict |
| Checkout.LeadingContentAccepted | src/app/page.tsx:514-517 | a form whose eight required fields each start with a character that is not whitespace is accepted |
| Checkout.ValidateRefusesBlank | src/app/page.tsx:516 | one required field that is empty or all whitespace is enough to refuse the form |
| Checkout.EmptyFormRefused | src/app/page.tsx:369-379 | the initial empty form is refused, and so is any form with one field filled in and the country still empty |
| Order.MoneyReadBack | src/app/page.tsx:495-497 | an amount written as "S$" and two decimals reads back as that amount |
| Order.ItemLine | src/app/page.tsx:493 | an item line starts with the product's name in the chosen language, and holds a newline exactly when that name does |
| Order.ItemLineReadBack | src/app/page.tsx:493 | after the name, an item line reads " x", the quantity, " - " and an amount that reads back as price times quantity |
| Order.FullNameSplits | src/app/page.tsx:487 | the sender's name splits at its first space back into the first name, and into first and last name when neither holds a space |
| Order.ShippingAddressSplits | src/app/page.tsx:490 | the address splits at its commas back into address, city, postal code and country, each after the first with its leading space, when no field holds a comma |
| Order.ItemBlockLines | src/app/page.tsx:492-494 | the item block splits back at its newlines into exactly the item lines, one per cart line in cart order, when no product name holds a newline |
| Order.OrderEmailAmounts | src/app/page.tsx:495-497 | the email's subtotal, shipping and total read back as the cart's subtotal, its shipping cost and their sum |
| Order.OrderEmailShipping | src/app/page.tsx:496 | the email's shipping reads "S$0.00" for an empty cart and "S$20.00" otherwise |
| Order.ShippingTexts | src/app/page.tsx:496 | the two shipping costs render as "S$0.00" and "S$20.00" |
| Storefront.Home.constructor | src/app/page.tsx:365-383 | the initial state: empty cart, empty form, PayNow, nothing processing or complete, no email status, English, dialogs closed |
| Storefront.Home.AddToCart | src/app/page.tsx:400-444 | the cart becomes `AddItem` of the old cart; no other state changes; the notice says whether a quantity was raised or a line added |
| Storefront.Home.RemoveFromCart | src/app/page.tsx:446-448 | the cart becomes `Remove` of the old cart; no other state changes; the invariant is kept |
| Storefront.Home.UpdateQuantity | src/app/page.tsx:450-462 | delegates to removal for n of zero or less, and otherwise sets the quantity; no other state changes |
| Storefront.Home.ChangeField | src/app/page.tsx:510-512 | only the named form field changes |
| Storefront.Home.SelectPaymentMethod | src/app/page.tsx:1119-1132 | only the payment method changes |
| Storefront.Home.SetCartOpen | src/app/page.tsx:897-908 | only the cart drawer opens or closes |
| Storefront.Home.OpenCheckout | src/app/page.tsx:970-974 | the cart closes and checkout opens; nothing else changes |
| Storefront.Home.CloseCheckout | src/app/page.tsx:986 | only the checkout dialog closes; a completed order stays complete |
| Storefront.Home.SendOrderEmail | src/app/page.tsx:480-502 | status goes to sending and the email of the form, with the current cart, payment method and language, is dispatched; nothing else changes |
| Storefront.Home.EmailAnswered | src/app/page.tsx:502-507 | status becomes sent or error by the service's answer, and the failure goes no further; nothing else changes |
| Storefront.Home.SubmitOrder | src/app/page.tsx:519-528 | an invalid form changes and sends nothing; a valid one starts processing, dispatches the email and suspends holding that email and the current payment method and cart |
| Storefront.Home.FinishOrder | src/app/page.tsx:529-543 | the prompt is for the held payment method and the held cart's grand total; the order completes, the cart is emptied, whatever it holds now, and processing ends, in that order |
| Storefront.Home.CompleteOrder | src/app/page.tsx:519-543 | with no handler in between: an invalid form changes and sends nothing; a valid form sends the email of the old form and cart, and the steps run in order (processing on, email, answer, prompt with the old total, complete, cart cleared, processing off), ending with the cart empty and the status set by the answer |
| Storefront.Home.ResetCheckout | src/app/page.tsx:552-567 | checkout closes, the order is no longer complete, the email status resets and all nine fields are emptied; cart and payment method are untouched |
| Storefront.OrderCompletesDespiteEmailFailure | src/app/page.tsx:502-543 | two bottles, a failed email: the email carried the total 320, the order is marked complete with an empty cart and status error, and back to shopping clears the status and keeps PayNow |
| Storefront.BlankFieldBlocksOrder | src/app/page.tsx:514-523 | a form with one required field blank sends nothing, keeps the cart, and the order stays incomplete |
| Storefront.PaymentSwitchedWhileWaiting | src/app/page.tsx:527-535 | PayPal picked while the order waits: the prompt is still PayNow's, and PayPal stays selected |
| Storefront.CartEditWhileWaitingIsLost | src/app/page.tsx:492-538 | a bottle added while the order waits is not in the email: its item block splits back into the first bottle's line alone, and its subtotal is 150; the added bottle is wiped when the order completes |
| Storefront.ReopenedCheckoutShowsCompletedOrder | src/app/page.tsx:986-996 | after a completed order, closing the dialog by its own close and checking out again opens on the completed order |

## Left out

- JSX rendering, navigation, galleries, modals, the scroll listener, the mobile menu and the cart icon's animation (`cartAnimation`). These are presentation only.
- The language toggle. The `language` field is part of the state and selects the names in the email, but no handler changes it. In particular, a toggle during an order's waits is not modelled.
- The product descriptions, tasting notes and the translation tables. They are not read by the cart.
- Toasts and `alert` dialogs, including the required-field alert and the PayPal prompt's item list. The payment prompt is recorded only as a logged step carrying the method and the grand total.
- The `setTimeout` timers and the length of the one-second delay. The delay appears only as the second point where other handlers can run, between `EmailAnswered` and `FinishOrder`.
- The messaging service (`emailjs.init`, `emailjs.send`). The outcome of the send is the `delivered` parameter, and the service keys are not modelled.
- The `catch` branch of `handleCompleteOrder`. It cannot be reached, because `sendOrderEmail` catches its own failure and the other steps do not throw.
- The localized `order_date` timestamp. It depends on the clock and the browser's locale, so `EmailParams` has no date field.
- `console.error` logging.
- Floating-point prices and `toFixed(2)` rounding. Prices are whole dollars, and `toFixed(2)` is modelled only on whole numbers.
- Catalog.ParsePrice: requires a well-formed `S$<digits>` tag. The model does not capture what `parseFloat` does with a malformed tag, since the catalog has none (`Catalog.CatalogPricesWellFormed`).
- Interleaving is modelled only at the two awaits of `handleCompleteOrder`, between `SubmitOrder`, `EmailAnswered` and `FinishOrder`. The handlers that stay live there are the form fields, the payment buttons, the dialog closes and, with checkout closed, the cart buttons and add-to-cart. React's batching of several state updates into one render is not modelled. Each handler call is one render.
- A second order started while one is in flight. The button is disabled while `isProcessing` is set, and `SubmitOrder` requires `!isProcessing`.
- Text.Trim: states emptiness and the characters at both ends of the result. It does not state that the result is the middle of the input; checkout validation needs only the emptiness.
