# Tea shop core in Dafny

A model of the core of a Django tea shop. It covers four areas:

- **Pricing** (`model/models.py`):
  - the tax rate and the shipping rule in force on a given day;
  - the free-shipping threshold;
  - the tax-inclusive price;
  - the amounts an order freezes.
- **Cart, checkout and payment** (`shop/views.py`, `shop/forms.py`):
  - adding, updating and removing cart lines against stock;
  - the checkout gate and the checkout form's cleaning;
  - creating the order, its lines and the payment-gateway session;
  - the payment return, the cancel page and the gateway webhook.
- **Accounts** (`model/models.py`, `authentication/views.py`, `authentication/utils.py`):
  - the user manager's `create_user` and `create_superuser`;
  - `User.save` with its generated username;
  - the verification e-mail;
  - `signup`, `verify_email` and `resend_verification_email`.
- **Tea catalogue** (`tea/views.py`):
  - the publication filter;
  - the list and detail pages with their favourite counts;
  - adding and cancelling favourites;
  - a review's star display.

The database tables are fields of three store classes:

- `ShopViews.Shop` holds products, carts and orders;
- `AuthViews.AccountStore` holds the `users` table;
- `Teas.Catalog` holds the `favorite_teas` pairs.

Each view is a method of its store. A view that only reads and writes rows is specified by a function over the table values. The method's postcondition ties the new state and its reply to that function. The lemmas then state what the view promises.

The order is a class, because `calculate_amounts` updates its own fields.

Money is modelled as unbounded integers. Rates are integer hundredths of a percent (10.00% is 1000), so `int(x * rate / 100)` is computed exactly, with Python's truncation toward zero.

Modules, one per file:

| file | module | role |
|---|---|---|
| base.dfy | Base | `Option`, `Result`, identifiers, time |
| pricing.dfy | Pricing | dated tax and shipping rows, tax-inclusive price |
| orders.dfy | Orders | products, cart and order lines, totals, class `Order` |
| forms.dfy | Forms | `clean_*` of the cart and checkout forms |
| carts.dfy | Carts | the cart edits as functions on a cart |
| payments.dfy | Payments | gateway line items and stock decrements |
| shop_views.dfy | ShopViews | class `Shop`: the cart, checkout and payment views |
| users.dfy | Users | `User` row, display name, token validity, unique username |
| auth_views.dfy | AuthViews | class `AccountStore`: account creation and verification |
| teas.dfy | Teas | class `Catalog`: publication, favourites, star display |

## Model

| member | source | states |
|---|---|---|
| Pricing.Truncate | model/models.py:466 | Python's `int()` of a quotient by 100×100: truncation toward zero, bounded on both sides for either sign |
| Pricing.WithTax | model/models.py:349-352 | the tax-inclusive price is the floor of price×(100+rate)/100 for a non-negative product and is never below a non-negative price; `Pricing.WithTaxIsFloor` adds that it is the price plus the truncated tax |
| Pricing.WithTaxIsFloor | model/models.py:349-352 | for non-negative price and rate, the tax-inclusive price is the floor of price×(100+rate)/100, equals price plus the truncated tax, and is never below the price |
| Pricing.LatestIndex | model/models.py:240-243 | the active row starting on or before today with the latest start date; None exactly when no row applies |
| Pricing.CurrentTaxRateIsLatest | model/models.py:235-247 | the current tax rate is the rate of an applying row that no other applying row starts after, and 10.00% when none applies |
| Pricing.CurrentTaxRate | model/models.py:235-247 | the rate of some applying row, or 10.00% and always 10.00% when no row applies; `Pricing.CurrentTaxRateIsLatest` adds that the row is a latest one |
| Pricing.CurrentShippingRuleIsLatest | model/models.py:285-298 | the current shipping rule is resolved the same way, defaulting to a fee of 800 with no threshold |
| Pricing.CurrentShippingRule | model/models.py:285-298 | the rule of some applying row, or the default of 800 with no threshold, always the default when no row applies; `Pricing.CurrentShippingRuleIsLatest` adds that the row is a latest one |
| Pricing.ShippingFeeFor | model/models.py:301-307 | the fee is 0 exactly when a non-zero threshold is set and the subtotal reaches it, otherwise the flat fee |
| Pricing.CalculateShippingFee | model/models.py:300-307 | the fee is 0 when the day's rule waives shipping for the subtotal and the day's flat fee otherwise; the waiver is described by `Pricing.FreeShippingBoundary`, `Pricing.NoThresholdNeverWaives` and `Pricing.WaiverIsUpwardClosed` |
| Pricing.FreeShippingBoundary | model/models.py:305 | the threshold is inclusive: a subtotal equal to it ships free, one less pays the fee |
| Pricing.NoThresholdNeverWaives | model/models.py:305 | with no threshold, or a threshold of 0, the fee is always charged |
| Pricing.WaiverIsUpwardClosed | model/models.py:305 | once shipping is free for a subtotal it is free for every larger one |
| Orders.AmountsFor | model/models.py:454-472 | the computed amounts keep the given subtotal, take the day's tax rate, the tax truncated on the whole subtotal and the day's shipping fee for it, and the total is subtotal + tax + shipping |
| Orders.CartTotalsFor | model/models.py:541-565 | the live cart total is subtotal + tax + shipping, with the tax truncated on the whole subtotal at today's rate |
| Orders.Snapshot | shop/views.py:196-202 | one order line per cart item, in order, with its product, its quantity and the product's price of the moment |
| Orders.SnapshotSubtotal | model/models.py:457-460 | the frozen lines add up to the cart's subtotal at checkout |
| Orders.SnapshotAmountsMatchCart | model/models.py:454-472 | an order's amounts computed from its frozen lines equal the cart's totals of that day |
| Orders.Order.constructor | shop/views.py:180-193 | a pending order with the given owner, number and shipping details, no lines and all amounts zero |
| Orders.Order.CalculateAmounts | model/models.py:454-472 | the order's money fields become the amounts of its own frozen lines under the day's pricing, and stay consistent |
| Forms.CleanQuantity | shop/forms.py:32-39 | a quantity is accepted exactly when 1 ≤ quantity ≤ stock, returned unchanged; below 1 is the minimum error, above stock the stock error |
| Forms.QuantityBoundary | shop/forms.py:63-70 | the stock itself is accepted, one more is refused, and 0 is refused rather than removing the line |
| Forms.Remove | shop/forms.py:120 | `replace(c, "")` keeps exactly the characters other than `c` and shortens the string by the number of `c`s |
| Forms.Strip | shop/forms.py:76-107 | the `strip=True` every `CharField` applies first: what is left is a slice of the input that neither starts nor ends with whitespace, and everything cut off on either side is whitespace |
| Forms.CleanCharField | shop/forms.py:76-107 | a required char field is accepted exactly when its stripped value is non-empty, within its `max_length` and free of U+0000 (the null-character validator every `CharField` has), and it passes on the stripped value; the error is the required one, else the length one, else the null-character one |
| Forms.CleanPostalCode | shop/forms.py:117-127 | accepted exactly when the stripped input has at most 8 characters and its hyphen-free rest is seven digits; the result is eight characters `ddd-dddd`; a refusal is the char field's own error, else the format error |
| Forms.PostalCodeKeepsDigits | shop/forms.py:117-127 | the cleaned code holds the stripped input's digits in their order, only hyphens dropped and one put back after the third digit |
| Forms.PostalCodeIdempotent | shop/forms.py:117-127 | cleaning an already cleaned postal code returns it unchanged |
| Forms.PostalCodeHasAtMostOneHyphen | shop/forms.py:86-87 | the 8-character cap lets through at most one hyphen, in any position of the stripped input |
| Forms.CleanPhone | shop/forms.py:129-141 | an accepted phone number is returned as typed once stripped, separators kept; a refusal is the char field's own error, else the digit error when the separator-free rest is not all digits (so also when it is empty), and only otherwise the length error |
| Forms.PhoneDigitsAreNonSeparators | shop/forms.py:132-134 | the chain of four replacements removes exactly the characters `-`, space, `(` and `)` |
| Forms.CleanPhoneOk | shop/forms.py:129-141 | accepted exactly when the stripped input is non-empty, within 20 characters, and its separator-free rest is 10 or 11 digits |
| Forms.PhoneAcceptance | shop/forms.py:129-141 | accepted exactly when the stripped input has at most 20 characters, each a digit or separator, holding 10 or 11 digits |
| Forms.CleanCheckout | shop/forms.py:73-141 | the form is valid exactly when all four fields clean (so a name or address holding U+0000 makes it invalid); the valid result carries the reformatted postal code and the other fields stripped; an invalid one names exactly the fields whose cleaning fails |
| Forms.CleanedCheckoutFitsOrder | shop/forms.py:76-115 | a valid form gives a name of 1–100 characters, a postal code of exactly 8 and a phone of 10–20, which fit their order columns, name and phone free of surrounding whitespace; the address is not bounded |
| Carts.Find | shop/views.py:35-108 | the cart line picked by product (`get_or_create` at lines 35-39) or by item id (`get_object_or_404` at lines 104-108), or None exactly when no line matches: the line `get_or_create` creates, or the 404 |
| Carts.MergeInto | shop/views.py:35-52 | a refusal happens only when a line of the product plus the quantity exceeds the stock; without such a line a new line is appended; otherwise only the product's line changes; `Carts.MergeIntoQuantities` and `Carts.MergeIntoWellFormed` state the full effect |
| Carts.QuantityOfConcat | model/models.py:563-565 | held quantities and the item count add over concatenated carts |
| Carts.AbsentProductQuantity | shop/views.py:35-39 | a product without a line is held in quantity 0 |
| Carts.SingleLineQuantity | model/models.py:613 | under `unique_together (cart, product)` the quantity held of a product is that of its one line |
| Carts.MergeIntoQuantities | shop/views.py:35-52 | adding is refused exactly when an existing line plus the quantity would exceed the stock; otherwise the product's quantity grows by exactly the added amount, other products and their counts unchanged |
| Carts.MergeIntoWellFormed | shop/views.py:35-52 | adding keeps one line per product, distinct ids and quantities of at least 1; a new line consumes the next id |
| Carts.SetQuantity | shop/views.py:112-115 | the line keeps its id and product and takes the new quantity; every other line is unchanged; `Carts.SetQuantityQuantities` states the effect on held quantities |
| Carts.RemoveAt | shop/views.py:133 | exactly the one line is removed, the others kept in order; `Carts.RemoveAtQuantities` states the effect on held quantities |
| Carts.SetQuantityQuantities | shop/views.py:112-115 | updating a line sets its product's quantity and leaves every other product's unchanged |
| Carts.RemoveAtQuantities | shop/views.py:133 | deleting a line drops its product to 0 and leaves the others unchanged |
| Carts.EditsKeepWellFormed | shop/views.py:100-135 | updating and removing keep the cart well formed |
| Payments.ProductLines | shop/views.py:212-223 | one gateway entry per cart item, with the product's tax-inclusive unit price and the item's quantity |
| Payments.ProductLinesExcess | shop/views.py:212-223 | the tax charged per unit, summed, is at least 0 and at most the tax on the whole subtotal before truncation |
| Payments.SessionLines | shop/views.py:209-236 | the product entries of `Payments.ProductLines`, followed by one shipping entry of quantity 1 exactly when the fee is positive; `Payments.ChargedAtMostOrderTotal` bounds what it charges |
| Payments.ChargedAtMostOrderTotal | shop/views.py:209-236 | the gateway never charges more than the order's subtotal + tax + shipping |
| Payments.ChargedCanFallShortOfOrderTotal | shop/views.py:209-236 | the gateway can charge less than the order's total: two items of 5 at 10% are charged 10 against a recorded 11 |
| Payments.Decremented | shop/views.py:293-296 | the stock loop keeps the same products and changes only their stock |
| Payments.DecrementedStock | shop/views.py:354-357 | each product's stock falls by exactly the quantity ordered of it over all lines |
| Payments.ConfirmingTwiceDecrementsTwice | shop/views.py:286-303 | the payment return followed by the webhook removes the ordered quantity from stock twice |
| Payments.DoubleConfirmationOversells | shop/views.py:342-359 | stock 5 and an order of 3 end at stock −1 after both confirmations |
| Payments.ConfirmOnce | shop/views.py:286-296 | a guarded confirmation: only a pending order becomes paid, and the product set is kept |
| Payments.ConfirmOnceIsIdempotent | shop/views.py:342-357 | confirming an order again changes nothing |
| Payments.ConfirmTimesDecrementsOnce | shop/views.py:286-357 | however many confirmations arrive, from either path, a pending order ends paid with its stock decremented once |
| ShopViews.OrderNumber | shop/views.py:182 | the order number is `ORD-` followed by the suffix |
| ShopViews.FirstShort | shop/views.py:150-156 | the first cart item above its product's stock, None exactly when every item is within stock |
| ShopViews.ClearedCarts | shop/views.py:298-301 | emptying the user's cart, if any, leaves every other user's cart and the set of carts unchanged |
| ShopViews.ClearedCartsWellFormed | shop/views.py:298-301 | emptying a cart keeps every cart well formed |
| ShopViews.PutCartWellFormed | model/models.py:613 | storing one well-formed cart keeps all carts well formed |
| ShopViews.CheckoutGate | shop/views.py:140-174 | no cart is a 404, an empty cart is refused, a short item names its product, a GET shows the form, an invalid POST shows the errors, and only a valid POST of a cart within stock proceeds with the cleaned shipping details |
| ShopViews.Shop.constructor | model/models.py:316-613 | a store with the given catalogue and settings and no carts or orders |
| ShopViews.Shop.AddToCart | shop/views.py:21-79 | a missing or unavailable product is a 404; a refused quantity or an overflowing stock changes nothing; otherwise the cart becomes the merged cart and a new line uses one item id |
| ShopViews.Shop.UpdateCartItem | shop/views.py:100-121 | only a line of the user's own cart is found; a refused quantity changes nothing; otherwise only that line's quantity changes |
| ShopViews.Shop.RemoveCartItem | shop/views.py:124-135 | only a line of the user's own cart is found, and exactly that line is removed |
| ShopViews.Shop.SnapshotItems | shop/views.py:196-202 | the `OrderItem` loop builds exactly the snapshot of the cart |
| ShopViews.Shop.BuildLineItems | shop/views.py:209-236 | the `line_items` loop builds the product entries, then a shipping entry only when the fee is positive |
| ShopViews.Shop.PlaceOrder | shop/views.py:180-206 | a fresh order frozen from the cart: pending, one line per item at its price of the moment, amounts of the day, and the session id |
| ShopViews.Shop.InsertOrder | shop/views.py:180-193 | a new order row takes the next id and nothing else changes |
| ShopViews.Shop.StoreOrder | shop/views.py:180-206 | the placed order is stored under the next id |
| ShopViews.Shop.DeleteOrder | shop/views.py:267-268 | `order.delete()` removes exactly that order |
| ShopViews.Shop.CreateCheckoutSession | shop/views.py:177-270 | a clashing order number stores nothing; otherwise an order id is used, the order is kept with its session id when the gateway creates a session, and deleted when it fails |
| ShopViews.Shop.OpenSession | shop/views.py:180-270 | the order, its lines and amounts, and the line items are built; a created session keeps the order, a failed one deletes it |
| ShopViews.Shop.FindShort | shop/views.py:150-156 | the stock loop finds the first item above stock |
| ShopViews.Shop.CartFor | shop/views.py:142 | the user's cart exactly when the user has one |
| ShopViews.Shop.CheckCheckout | shop/views.py:140-162 | the checks run in the view's order and give exactly the checkout gate |
| ShopViews.Shop.Checkout | shop/views.py:138-174 | an early answer stores nothing; a passing gate creates the order and the session from the user's cart |
| ShopViews.Shop.DecrementStock | shop/views.py:293-296 | the products become exactly the decremented products for the order's lines |
| ShopViews.Shop.MarkPaid | shop/views.py:286-296 | the order is paid with the payment intent recorded, and the stock is decremented by its lines |
| ShopViews.Shop.SetPaid | shop/views.py:288-290 | the order's status is paid and its payment intent is recorded |
| ShopViews.Shop.ClearCart | shop/views.py:299-301 | the carts become the cleared carts for the user |
| ShopViews.Shop.PaymentSuccess | shop/views.py:273-308 | another user's or a missing order is a 404 that leaves that order, the stock and the carts untouched; a paid session marks the order paid, decrements stock and empties the cart with no status check; otherwise nothing changes |
| ShopViews.Shop.PaymentCancel | shop/views.py:311-323 | another user's or a missing order is a 404 that leaves that order untouched; the user's own order becomes cancelled whatever its status, a paid one included, as `Payments.Cancel` says; no order is added or removed and the stock and carts stay as they were |
| Payments.Cancel | shop/views.py:318-320 | cancelling sets the status to cancelled and leaves the stock as it is |
| Payments.CancelAfterPaymentKeepsStockTaken | shop/views.py:318-320 | cancelling an order after it was paid does not give its stock back: each product stays decremented by the quantity ordered |
| ShopViews.Shop.StripeWebhook | shop/views.py:326-361 | a payload that does not verify is a 400; a completed session for an existing order marks it paid and decrements stock with no status check; carts never change; otherwise 200 |
| ShopViews.Shop.ConfirmPayment | shop/views.py:286-359 | the guarded confirmation: the order and stock change exactly as a single confirmation of a pending order, and otherwise not at all |
| Users.LocalPart | model/models.py:125 | `split('@')[0]`: the longest prefix without `@`, followed by `@` when shorter than the address |
| Users.DisplayName | model/models.py:123-125 | the nickname when set, otherwise the local part of the e-mail address |
| Users.TokenValidityWindow | model/models.py:131-136 | a link never sent is valid; a sent link is valid exactly before 24 hours have passed, and once invalid stays invalid |
| Users.IsVerificationTokenValid | model/models.py:131-136 | a link never sent is valid; a sent one is valid while fewer than 86400 seconds have passed; `Users.TokenValidityWindow` adds the boundaries and that lost validity never returns |
| Users.DecimalString | model/models.py:18 | `str(counter)` is a non-empty string of decimal digits |
| Users.ParseDecimalString | model/models.py:18 | the decimal digits of a counter read back as the counter |
| Users.CandidateInjective | model/models.py:14-19 | different counters give different candidate usernames |
| Users.FirstFreeIsLeast | model/models.py:17-19 | the loop stops at the least counter whose name is free |
| Users.UniqueUsernameIsFree | model/models.py:12-20 | the generated username is free; it is the local part when that is free, otherwise the local part plus the least counter from 1 whose name is free |
| Users.GenerateUniqueUsername | model/models.py:108-116 | the loop returns exactly the unique username for the e-mail and the taken names |
| AuthViews.FindFirst | authentication/views.py:28 | `filter(...).first()`: the matching row with the smallest key, or None exactly when none matches |
| AuthViews.FindFirstComplete | authentication/views.py:145 | under the invariant a lookup sees the whole table |
| AuthViews.LookupsAreUnique | model/models.py:68-90 | under the unique constraints an e-mail or a token matches at most one row, and the lookup finds it |
| AuthViews.Prepared | model/models.py:118-121 | `save` changes at most the username, and gives staff or superusers without one a username no other row holds |
| AuthViews.Save | model/models.py:118-121 | a save that would break a unique constraint fails and changes nothing; otherwise it writes exactly the prepared row, inserting under the next key or overwriting its own |
| AuthViews.SaveKeepsValid | model/models.py:60-95 | every save keeps the unique constraints on e-mail, token and username |
| AuthViews.Send | authentication/utils.py:7-37 | a token another row holds fails before anything is stored; otherwise the new token and send time are stored, and then the mail fails or goes out |
| AuthViews.SendKeepsValid | authentication/utils.py:7-12 | sending keeps the constraints, and a link just sent is valid |
| AuthViews.CreateUserOutcome | model/models.py:22-36 | no e-mail address is refused; otherwise exactly one row is added under the next key, unverified and inactive unless told otherwise, or nothing changes on a duplicate |
| AuthViews.CreateUserSpec | model/models.py:22-36 | refused for an empty e-mail address, and otherwise only as a duplicate; a refusal changes nothing; success takes the next key; `AuthViews.CreateUserOutcome` states the new row |
| AuthViews.CreateSuperuserOutcome | model/models.py:38-53 | an explicit False for staff or superuser is refused and changes nothing; otherwise the superuser is staff, verified and active by default, with a username no other row holds |
| AuthViews.CreateSuperuserSpec | model/models.py:38-53 | refused as not staff exactly for an explicit False staff flag, as not superuser exactly for an explicit False superuser flag otherwise; a refusal changes nothing; success takes the next key; `AuthViews.CreateSuperuserOutcome` states the new row |
| AuthViews.SignupExistingReplies | authentication/views.py:30-61 | signing up with a known address keeps the constraints and reports success |
| AuthViews.SignupNewKeepsValid | authentication/views.py:64-101 | signing up a new address keeps the constraints and never shows the form again |
| AuthViews.SignupNewFailure | authentication/views.py:84-93 | a failed new signup leaves the table as it was, and the mail failed or the token was taken |
| AuthViews.SignupReplies | authentication/views.py:18-105 | the form is shown exactly for a GET or an invalid form; a submitted form always reports success, except for a new address whose mail did not go out, which leaves no row with that address |
| AuthViews.SignupVerifiedUnchanged | authentication/views.py:32-38 | signing up again with a verified address changes nothing and reports success |
| AuthViews.SignupUpdatesPending | authentication/views.py:41-61 | signing up again with an unverified address updates that row's password and nickname, keeps it unverified, stores the new token when free, and leaves other rows alone |
| AuthViews.SignupCreatesInactive | authentication/views.py:64-83 | a new address adds exactly one inactive, unverified row without username, holding the sent token and the send time |
| AuthViews.SignupSpec | authentication/views.py:18-105 | the form is shown exactly when no cleaned form is submitted, and then nothing changes; the Signup lemmas above state the rest |
| AuthViews.VerifyEmailOutcome | authentication/views.py:108-133 | an expired link, even for a verified row, changes nothing; an already verified row changes nothing; otherwise exactly the row's verified and active flags are set |
| AuthViews.VerifyUnknownToken | authentication/views.py:111 | a token no row holds ends in the 404 of `get_object_or_404` (`TokenNotFound`) and changes nothing; the `except User.DoesNotExist` branch at lines 135-137 is never reached |
| AuthViews.VerifyEmailTwice | authentication/views.py:120-128 | following a link a second time finds the row already verified and changes nothing |
| AuthViews.VerifyEmailSpec | authentication/views.py:108-137 | only `Verified` changes the table, keeping its keys; `TokenNotFound` exactly when no row holds the token; `AuthViews.VerifyEmailOutcome` states the rest |
| AuthViews.ResendTargetsPending | authentication/views.py:140-156 | a resend touches at most the unverified row with the address; there is no such row exactly when it reports none; a successful resend stores the new token and send time |
| AuthViews.ResendSpec | authentication/views.py:140-156 | the form exactly for a non-POST; the form and the no-pending-user reply change nothing; no row is ever added or removed; `AuthViews.ResendTargetsPending` states the rest |
| AuthViews.AccountStore.constructor | model/models.py:56-98 | an empty `users` table that satisfies the constraints |
| AuthViews.AccountStore.SaveUser | model/models.py:118-121 | the table and the result are exactly those of `Save` |
| AuthViews.AccountStore.DeleteUser | authentication/views.py:86 | exactly that row is removed |
| AuthViews.AccountStore.SendVerificationEmail | authentication/utils.py:7-37 | the table and the outcome are exactly those of `Send` |
| AuthViews.AccountStore.CreateUser | model/models.py:22-36 | the table and the result are exactly those of the `create_user` specification |
| AuthViews.AccountStore.CreateSuperuser | model/models.py:38-53 | the table and the result are exactly those of the `create_superuser` specification |
| AuthViews.AccountStore.Signup | authentication/views.py:18-105 | the table and the reply are exactly those of the `signup` specification |
| AuthViews.AccountStore.VerifyEmail | authentication/views.py:108-137 | the table and the reply are exactly those of the `verify_email` specification |
| AuthViews.AccountStore.ResendVerificationEmail | authentication/views.py:140-156 | the table and the reply are exactly those of the `resend_verification_email` specification |
| Teas.IsFavorited | tea/views.py:22-32 | false for an anonymous visitor; otherwise true exactly when the visitor's pair is stored |
| Teas.ListedTeas | tea/views.py:15-19 | a tea is listed exactly when published strictly before now and with at least one available product |
| Teas.PublishedTeaListAsWritten | tea/views.py:13-34 | the listed teas once each, with the favourite flag, and a count that multiplies favourites by available products |
| Teas.ListCountMultipliedByProducts | tea/views.py:15-19 | a tea with two available products and one favourite is listed with a count of 2 |
| Teas.PublishedTeaList | tea/views.py:13-34 | the listed teas, each with the number of users who favourited it and the visitor's flag |
| Teas.PublishedTeaDetail | tea/views.py:37-56 | a detail page exists exactly for a published tea |
| Teas.DetailAgreesWithList | tea/views.py:37-81 | the detail page shows only available products, the review form exactly for a signed-in visitor who has not reviewed, and the same count and flag as the list |
| Teas.FavoritersWith | tea/views.py:92-95 | storing the user's pair raises the count by one unless it was there |
| Teas.FavoritersWithout | tea/views.py:115-118 | deleting the user's pair lowers the count by one if it was there |
| Teas.AddFavoriteIdempotent | tea/views.py:85-105 | non-POST is a 400 and an unknown tea a 404, both unchanged; otherwise the pair exists afterwards, nothing else changes, the reply counts the favourites, and adding again changes nothing |
| Teas.AddFavoriteSpec | tea/views.py:85-105 | a toggle happens exactly for a POST on a known tea, and anything else changes nothing; after a toggle the pair is present, no other pair changed, and the reply says favourited |
| Teas.CancelFavoriteIdempotent | tea/views.py:108-128 | the same guards; otherwise the pair is absent afterwards, nothing else changes, and cancelling again changes nothing |
| Teas.CancelFavoriteSpec | tea/views.py:108-128 | a toggle happens exactly for a POST on a known tea, and anything else changes nothing; after a toggle the pair is absent, no other pair changed, and the reply says not favourited |
| Teas.CancelUndoesAdd | tea/views.py:85-128 | adding a new favourite and then cancelling it restores the table |
| Teas.Catalog.constructor | model/models.py:139-178 | a catalogue of the given teas with no favourites |
| Teas.Catalog.AddFavoriteTea | tea/views.py:85-105 | the pairs and the reply are exactly those of the add specification |
| Teas.Catalog.CancelFavoriteTea | tea/views.py:108-128 | the pairs and the reply are exactly those of the cancel specification |
| Teas.Repeat | model/models.py:208 | `c * n` has n copies of c, and none for a negative n |
| Teas.StarDisplay | model/models.py:206-208 | `rating` filled stars followed by `5 - rating` empty ones |
| Teas.StarDisplayCountsRating | model/models.py:184-193 | each rating from 1 to 5 shows five symbols, exactly `rating` of them filled |

## Left out

- The payment gateway is a parameter. The model receives the session the gateway creates or its failure, the session it reports back or a failed lookup, and the verified or rejected webhook event. Stripe's API, the URLs and the JSON of line items are not modelled.
- HTTP is not modelled: requests, redirects, flash messages, templates, the AJAX replies and the `checkout_data` kept in the session. A view's reply is a datatype naming the outcome.
- `cart_view`, `order_list` and `order_detail` only read and render; they are not modelled. `add_review`, the sign-in and sign-out views, the admin, the URL configuration, the migrations and `tea/models.py` are not part of this model.
- Passwords are stored as given. Hashing by `set_password`, `normalize_email` and the registration form's own validation are not modelled. The form arrives already cleaned, or as None for a GET or an invalid form.
- Verification tokens, the order-number suffix and the current time are parameters. The model does not produce UUIDs or read a clock. `auto_now` timestamps are not modelled.
- Database transactions and concurrent requests are not modelled. Each view runs on its own.
- `str.isdigit()` is modelled for ASCII digits only. Python also accepts other Unicode digits.
- Floating point is not modelled. The source mixes `Decimal` rates with `float` division. The model computes these exactly on integers and then truncates.
- ShopViews.Shop.PlaceOrder writes the session id onto the order before the order is stored. The source saves the order, creates the session, then saves the session id. Both orders of work leave the same final state.
- ShopViews.Shop.OpenSession: when the session fails, the deleted order's id stays used. This matches the database sequence.
- `MultipleObjectsReturned` in `resend_verification_email` cannot happen while e-mail addresses are unique, so it is not modelled.
- `save(update_fields=...)` in `verify_email` and `send_verification_email` writes only the listed columns, and the model (`AuthViews.VerifyEmailSpec`, `AuthViews.Send`) changes only those columns of the row rather than going through `AuthViews.Save`. The username that `User.save` may generate on the instance is not among the listed columns, so it is never written there; besides, every staff or superuser row was stored by a full save that already gave it a username.
- Forms.CleanQuantity: reports one error per quantity, the first check that fails. In Django, `min_value=1` and the `MaxValueValidator` that `AddToCartForm.__init__` adds both run as validators and can report together (a quantity below 1 against a stock below it), and a quantity above the stock fails that validator before `AddToCartForm.clean_quantity` runs; the model's `AboveStock` stands for either message.
- The form's `shipping_address` has no `max_length`, while `Order.shipping_address` has `max_length=200` (model/models.py:433-436). The model does not capture the `DataError` that a database enforcing the cap raises at `Order.objects.create` (shop/views.py:178) for a longer address. ShopViews.Shop.CreateCheckoutSession stores such an order as if the column were unbounded.
- Forms.CleanCharField: reports one error per field, the first of required, `max_length` and the null-character validator that fails. Django runs the two validators together and can report both.
- AuthViews.SignupUpdatesPending requires the first token to be free and the row not to be staff. The other cases are still covered by AuthViews.SignupReplies and AuthViews.SignupExistingReplies.

## Findings

| source | as written | input that shows it | evidently intended | confidence | as-written member | corrected member |
|---|---|---|---|---|---|---|
| shop/views.py:286-296, 342-357 | The payment return and the webhook both mark the order paid and both decrement stock, and neither checks whether the order is still pending. Both fire for one normal payment. | A product with stock 5 and an order of 3 confirmed by both paths leaves stock −1. | The stock is decremented once per order, on the first confirmation of a pending order. | not executed | Payments.DoubleConfirmationOversells | Payments.ConfirmOnce |
| tea/views.py:15-19 | `products__is_available=True` joins each tea with its available products before `Count('favorited_by')`. The count is therefore the favourites multiplied by the available products. | A published tea with two available products and one favourite shows a count of 2. | The count is the number of users who favourited the tea, as on the detail page. | not executed | Teas.ListCountMultipliedByProducts | Teas.PublishedTeaList |

The views `ShopViews.Shop.PaymentSuccess` and `ShopViews.Shop.StripeWebhook` model the code as written.

- The first finding is corrected by `Payments.ConfirmOnce`, a confirmation that only a pending order passes. `ShopViews.Shop.ConfirmPayment` performs it on the store. `Payments.ConfirmTimesDecrementsOnce` proves that stock is decremented once, however many confirmations arrive.
- The second finding is corrected by `Teas.PublishedTeaList`, which counts the users who favourited each tea. `Teas.DetailAgreesWithList` proves that its entries match the detail page.
