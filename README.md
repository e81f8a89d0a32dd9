# BonneAffaire78 order, product and cart logic in Dafny

This project models the business logic of the BonneAffaire78 furniture shop in three parts.

- **The order document** (`backend/models/Order.js`):
  - the enumerations and field rules of the schema;
  - the `itemCount` virtual;
  - the pre-save hook, whose five steps run in order: assign the day-scoped order number `BA78-YYMMDD-NNN`, correct item subtotals that are off by more than a cent, reconcile `totals.subtotal` and `totals.total` under the same tolerance, fill in the estimated delivery date, and append a timeline entry on a status change;
  - the methods `updateStatus`, `markAsPaid` and `addTrackingNumber`.
- **The product document** (`backend/models/Product.js`):
  - the category enum and the `oldPrice` rule;
  - the slug pipeline: lower-case, NFD, strip accents, keep `[a-z0-9\s-]`, white space to `-`, collapse `-` runs, trim one `-` at each end;
  - the rest of the pre-save step: drop an incoherent `oldPrice`, keep at most ten images;
  - the virtuals `discountPercentage`, `isInStock` and `primaryImage`;
  - `updateStock` and the three analytics counters.
- **The storefront page** (`frontend/assets/js/app.js`):
  - the cart kept in the page's global `state`: `addToCart`, `removeFromCart`, the badge count of `updateCartUI`, and `calculateCartTotal`;
  - the category filter;
  - the loading flag;
  - `proceedToCheckout`: the prompt line is split at commas and trimmed, the seven fields and the e-mail are checked, and the order request is built from the cart; the order is then either posted or, once the page runs in its demonstration mode, simulated;
  - `showSuccessOrder`, which empties the cart.

## How each part is modelled

Each part has the same two layers:
- **Pure layer.** Datatypes and functions state what each operation computes. Lemmas prove the properties the code promises.
- **Class layer.** The code changes things in place, so each document is a `class` with the fields the code changes: `Orders.Order`, `Products.Product`, and `Storefront.Shop` for the page state. Each method is written step by step, as the source is, and its `ensures` ties the new state to the pure layer (`State() == Saved(old(State()), ctx)`).

Money is an exact `real`. `Math.round(x * 100) / 100` becomes `Numeric.Round2`, which rounds halves toward +infinity as `Math.round` does.

Anything the code gets from outside is a parameter:
- the clock, in milliseconds;
- today's calendar date;
- the number of orders already created today (the `countDocuments` result);
- Mongoose's `isNew` and "status modified" flags;
- whether the product's name was modified;
- the line typed at the prompt (`None` when cancelled);
- the server's reply.

Shared pieces:
- `text.dfy`: JavaScript's `\s` class, `trim`, `split`/`join` on one character, `indexOf`, `slice(-n)`, `padStart`, `toString` of a non-negative integer, and the e-mail pattern `^[^\s@]+@[^\s@]+\.[^\s@]+$`. The order schema and the checkout form both use this pattern.
- `numeric.dfy`: rounding, and the sums that `reduce` computes.

## Model

| member | source | states |
|---|---|---|
| Numeric.RoundHalfUp | backend/models/Product.js:137 | `Math.round`: the result is within half a unit of x, with halves going up |
| Numeric.Round2 | backend/models/Order.js:253 | `Math.round(x*100)/100` is within half a cent of x, is a whole number of cents, and is non-negative for non-negative x |
| Text.Trim | frontend/assets/js/app.js:414 | `trim()` returns the slice of the input between its leading and trailing white space: everything cut off is white space, the result has none at either end, and an already-trimmed string is unchanged |
| Text.JoinSplit | frontend/assets/js/app.js:414 | joining the pieces of `split(',')` with ',' gives back the line |
| Text.SplitJoin | frontend/assets/js/app.js:414 | splitting pieces joined by ',' gives back the pieces, when no piece contains ',' |
| Text.IsEmailMatchesPattern | backend/models/Order.js:30 | the executable e-mail test accepts a string iff the regular expression does: local part, '@', a domain part, '.', a final part, none empty and none with white space or '@' |
| Text.LastDigitsValue | frontend/assets/js/app.js:465 | `n.toString().slice(-k)` is all digits and reads as `n` modulo 10^k |
| Text.TwoDigitYear | backend/models/Order.js:235 | `year.toString().slice(-2)` is two digits that read as `year % 100` |
| Text.PaddedDecimal | backend/models/Order.js:236-237 | `n.toString().padStart(w, '0')` is all digits, at least w long, and reads back as n |
| Text.PaddedDigits | backend/models/Order.js:236-237 | zero-padding any digit string on the left keeps it all digits and keeps its value |
| Text.PaddedWidth | backend/models/Order.js:247 | the padded number is exactly w digits long iff n < 10^w |
| Text.DecimalRoundTrip | backend/models/Order.js:247 | reading back the decimal form of n gives n |
| Orders.ParseStatus | backend/models/Order.js:127-134 | the status enum accepts exactly the seven names, and each name maps to its own status |
| Orders.ParsePaymentMethod | backend/models/Order.js:137-144 | the payment-method enum accepts exactly its five names |
| Orders.ParsePaymentStatus | backend/models/Order.js:145-152 | the payment-status enum accepts exactly its six names |
| Orders.ParseDeliveryMethod | backend/models/Order.js:158-165 | the delivery-method enum accepts exactly its four names |
| Orders.FieldRuleExamples | backend/models/Order.js:38-92 | sample values: a postal code needs exactly five digits; a phone needs at least ten characters from digits, white space, `-+()`; a quantity must lie in [1, 100] |
| Orders.ItemCount | backend/models/Order.js:226-228 | `itemCount` (the sum of the quantities, through the same `Numeric.Total` the storefront's cart count uses) is 0 for no items, and lies between n and 100n for n items whose quantities all satisfy the schema |
| Orders.OrderNumberFormat | backend/models/Order.js:234-247 | the generated number is "BA78-", six digits reading as YY, MM and DD, "-", then digits reading as count + 1; it is 15 characters long iff count < 999 |
| Orders.AssignedNumber | backend/models/Order.js:233-248 | an existing number is kept; only an unset one is generated |
| Orders.ReconcileItem | backend/models/Order.js:251-255 | an item is unchanged iff its subtotal is within 0.01 of price × quantity; otherwise its subtotal becomes the rounded amount. Afterwards the item is consistent, and a valid item stays valid |
| Orders.ReconciledItems | backend/models/Order.js:251-255 | the item pass treats every item alone, in order, and keeps the count |
| Orders.ReconcileSubtotal | backend/models/Order.js:258-261 | the subtotal is kept iff it is within 0.01 of the item sum, otherwise replaced by the rounded sum; no other total changes |
| Orders.ReconcileTotal | backend/models/Order.js:263-266 | the total is checked against the updated subtotal + shipping + tax − discount and replaced by its rounding only when it drifts by more than 0.01; afterwards it is within 0.01 |
| Orders.EstimateDelivery | backend/models/Order.js:269-275 | an unset estimate becomes now + 1 day (express) or now + 3 days (standard), stays unset for pickup and appointment, and then satisfies the future-date rule; a set estimate is kept |
| Orders.StatusChangeEntries | backend/models/Order.js:278-283 | the hook appends exactly one entry, "Statut changé en <status>", iff the status was modified on a document that is not new |
| Orders.Saved | backend/models/Order.js:231-286 | the whole hook: the number is assigned, items and totals are reconciled with each other, the delivery estimate is filled in, the timeline gets the hook's entry appended, and customer, status and payment are unchanged |
| Orders.SavedIsStable | backend/models/Order.js:250-266 | saving a saved document again changes neither its items, its totals nor its number |
| Orders.SavedKeepsItemRules | backend/models/Order.js:251-261 | the hook keeps items within the schema's item rules and keeps the subtotal non-negative |
| Orders.StatusUpdated | backend/models/Order.js:289-297 | `updateStatus` sets the status and appends its own entry ("Statut mis à jour: <status>" by default); the save may then append the hook's entry |
| Orders.StatusUpdateLogsTwice | backend/models/Order.js:289-297 | on a stored order, a real status change leaves two timeline entries: the method's own, then the hook's |
| Orders.MarkedAsPaid | backend/models/Order.js:299-305 | `markAsPaid` sets payment status paid, the time, the transaction id and the amount (the total before the save); on an already reconciled order the amount equals the saved total |
| Orders.TrackingAdded | backend/models/Order.js:307-311 | `addTrackingNumber` sets the tracking number and the carrier, leaves status shipped, and the timeline becomes the old timeline, then the "Expédié avec le numéro de suivi" entry, then the hook's "Statut changé en" entry exactly when the status was modified on a stored order; payment and customer are unchanged |
| Orders.Order.constructor | backend/models/Order.js:127-165 | a new order starts unnumbered, with status pending, payment pending, no delivery estimate and an empty timeline |
| Orders.Order.ReconcileItemSubtotals | backend/models/Order.js:251-255 | the `forEach` loop leaves exactly the reconciled items |
| Orders.Order.AssignOrderNumber | backend/models/Order.js:233-248 | the numbering step, in place |
| Orders.Order.ReconcileTotals | backend/models/Order.js:258-266 | the two total steps, in place and in order |
| Orders.Order.EstimateDeliveryDate | backend/models/Order.js:269-275 | the delivery step, in place |
| Orders.Order.RecordStatusChange | backend/models/Order.js:278-283 | the timeline step, in place |
| Orders.Order.PreSave | backend/models/Order.js:231-286 | the five steps in order leave the document as `Saved` describes |
| Orders.Order.UpdateStatus | backend/models/Order.js:289-297 | in place, as `StatusUpdated` describes |
| Orders.Order.MarkAsPaid | backend/models/Order.js:299-305 | in place, as `MarkedAsPaid` describes; afterwards `isPaid` holds |
| Orders.Order.AddTrackingNumber | backend/models/Order.js:307-311 | in place, as `TrackingAdded` describes; afterwards `isDelivered` is false |
| Products.ParseCategory | backend/models/Product.js:16-25 | the category is lower-cased, then accepted iff it is one of the four names |
| Products.Lowered | backend/models/Product.js:155 | `toLowerCase` keeps the length and maps each character |
| Products.StripMarksSpec | backend/models/Product.js:157 | no combining mark survives, and a string without marks is unchanged |
| Products.KeepSlugCharsSpec | backend/models/Product.js:158 | only [a-z0-9-] and white space survive, and a string of those is unchanged |
| Products.SpacesToHyphensSpec | backend/models/Product.js:159 | after the white-space step only [a-z0-9-] remain, and a string without white space is unchanged |
| Products.CollapseHyphensSpec | backend/models/Product.js:160 | after collapsing there is no "--", and slug characters stay slug characters |
| Products.CollapseHyphensFixed | backend/models/Product.js:160 | a string without "--" passes the collapsing step unchanged |
| Products.TrimHyphensSpec | backend/models/Product.js:161 | trimming a string without "--" leaves no '-' at either end, and a clean slug is unchanged |
| Products.SlugifyIsClean | backend/models/Product.js:154-161 | every slug has only [a-z0-9-], no "--", and no '-' at either end |
| Products.CleanSlugIsFixed | backend/models/Product.js:154-161 | a clean slug is its own slug |
| Products.SlugifyIdempotent | backend/models/Product.js:154-161 | running the pipeline on its own output returns it unchanged |
| Products.FoldStripConcat | backend/models/Product.js:155-157 | folding and stripping accents act on each piece of a name separately |
| Products.AccentFoldsToBase | backend/models/Product.js:155-157 | an accented Latin-1 letter, upper- or lower-case, folds to its base letter a-z |
| Products.AccentExamples | backend/models/Product.js:155-157 | É and é become e, Ç becomes c, ü becomes u |
| Products.SpacedWordsSlug | backend/models/Product.js:154-161 | two lower-case words separated by a space give the two words joined by '-' ("cafe elegant" gives "cafe-elegant") |
| Products.CoherentOldPrice | backend/models/Product.js:165-167 | a set `oldPrice` at or below the price is cleared, any other value is kept; afterwards the validator of lines 39-41 accepts it |
| Products.CappedImages | backend/models/Product.js:170-172 | more than ten images become the first ten, in order; ten or fewer are unchanged |
| Products.DiscountFor | backend/models/Product.js:135-140 | 0 unless `oldPrice` > price; otherwise the nearest integer to the percentage off, which lies in [0, 100] when the price is non-negative |
| Products.DiscountExamples | backend/models/Product.js:135-140 | 75 against 100 gives 25; 649 against 999 gives 35; 100 against 80, or no old price, gives 0 |
| Products.PrimaryOf | backend/models/Product.js:146-148 | `primaryImage` is the first image flagged primary, else the first image, else nothing |
| Products.StockAfter | backend/models/Product.js:194 | `max(0, stock + q)`: never negative, and equal to stock + q when that is non-negative |
| Products.DerivedSlug | backend/models/Product.js:153-162 | a slug is derived only when the name was modified and none is set; an existing slug is never overwritten |
| Products.Normalized | backend/models/Product.js:151-175 | the pre-save step changes only the slug, `oldPrice` and images, as the three rules say |
| Products.NormalizedIdempotent | backend/models/Product.js:151-175 | saving twice gives the same product as saving once |
| Products.NormalizedIgnoresCounters | backend/models/Product.js:177-196 | on a normalised product, the save inside a counter or stock method changes nothing beyond that field |
| Products.Product.constructor | backend/models/Product.js:117-121 | a new product has no slug and its counters at zero |
| Products.Product.DiscountPercentage | backend/models/Product.js:135-140 | the virtual lies in [0, 100] for a non-negative price |
| Products.Product.PrimaryImage | backend/models/Product.js:146-148 | the virtual is missing iff there are no images |
| Products.Product.PreSave | backend/models/Product.js:151-175 | in place, as `Normalized` describes |
| Products.Product.IncrementViews | backend/models/Product.js:178-181 | views + 1, then the save |
| Products.Product.AddToCartCount | backend/models/Product.js:183-186 | addedToCart + 1, then the save |
| Products.Product.IncrementPurchased | backend/models/Product.js:188-191 | purchased + quantity, then the save |
| Products.Product.UpdateStock | backend/models/Product.js:193-196 | stock becomes `max(0, stock + q)`, then the save; stock is never negative |
| Storefront.CartCountBounds | frontend/assets/js/app.js:281 | the badge count is 0 for an empty cart and at least the number of lines when every line holds an article |
| Storefront.CartTotalNonNegative | frontend/assets/js/app.js:288-290 | the cart total is non-negative when prices and quantities are |
| Storefront.FindLine | frontend/assets/js/app.js:233 | `find` by id yields the first line with that id, or none when no line has it |
| Storefront.ItemAddedLines | frontend/assets/js/app.js:231-244 | an id already present raises that line's quantity by one and changes nothing else; a new id appends {id, name, price, 1} after the unchanged lines |
| Storefront.ItemAddedTotals | frontend/assets/js/app.js:231-250 | adding raises the count by one and the total by that line's price |
| Storefront.ItemAddedKeepsIdsUnique | frontend/assets/js/app.js:233-244 | ids stay unique when they were |
| Storefront.ItemAddedKeepsArticles | frontend/assets/js/app.js:233-244 | a new line starts with one article and an existing line gains one, so every line still holds at least one |
| Storefront.AddedTwice | frontend/assets/js/app.js:231-244 | the same product added twice to an empty cart gives one line of two articles, worth twice the price |
| Storefront.LineRemoved | frontend/assets/js/app.js:261-263 | `splice(index, 1)` removes exactly that line and keeps the others in order; the count and the total drop by that line's share |
| Storefront.LineRemovedOutOfRange | frontend/assets/js/app.js:262 | an index outside the cart changes nothing |
| Storefront.LineRemovedKeepsArticles | frontend/assets/js/app.js:262-263 | removing a line leaves only lines that were in the cart, so every line still holds at least one article |
| Storefront.Filtered | frontend/assets/js/app.js:510-513 | "all" yields every product; any other category yields only products of that category, each of them, none from elsewhere |
| Storefront.MatchingConcat | frontend/assets/js/app.js:513 | the filter keeps catalogue order: it works piece by piece |
| Storefront.FilterLabel | frontend/assets/js/app.js:523-530 | the notification names "Tous les produits" iff the category is neither one of the four nor a property every object inherits from `Object.prototype`; for those inherited names the lookup is truthy and the label is another text |
| Storefront.ParseCustomer | frontend/assets/js/app.js:414-425 | a missing field is reported iff one of the seven trimmed fields is empty; a bad e-mail iff all are present and the pattern fails; otherwise the details are the trimmed fields |
| Storefront.DestructuredFieldsClean | frontend/assets/js/app.js:414 | every field read from a line is trimmed and free of commas |
| Storefront.FormattedSplits | frontend/assets/js/app.js:405-414 | a line typed in the prompt's format splits back into its seven fields |
| Storefront.ParseFormatRoundTrip | frontend/assets/js/app.js:405-425 | any well-formed details, typed in the prompt's format, are accepted and read back as they were |
| Storefront.ParsedIsStable | frontend/assets/js/app.js:414-425 | accepted details are read the same way when typed in again |
| Storefront.SchemaValidIsAccepted | frontend/assets/js/app.js:414-436 | details whose posted customer block meets the order schema's rules (Order.js:12-67) pass the page's checks and are read back unchanged |
| Storefront.AcceptedMeetsSchemaIff | backend/models/Order.js:12-67 | for details the page accepts, the schema accepts the posted customer block iff the phone and postal-code patterns and the length bounds hold |
| Storefront.AcceptedButRefused | frontend/assets/js/app.js:414-436 | the page accepts details with a phone under ten characters or a postal code of other than five, which the schema then refuses |
| Storefront.RequestItems | frontend/assets/js/app.js:435-440 | the request maps cart lines one to one, in order, to {productId, name, quantity, price} |
| Storefront.RequestMatchesCart | frontend/assets/js/app.js:427-442 | the request has one item per line and the cart's article count and amount |
| Storefront.DemoOrderNumber | frontend/assets/js/app.js:465 | the simulated number is "BA78-DEMO-" followed by the clock's last six digits, which read as the clock modulo 1000000 (fewer digits only for a clock below 100000) |
| Storefront.CheckoutNeedsValidDetails | frontend/assets/js/app.js:399-442 | no confirmation and no request without a non-empty cart and well-formed details |
| Storefront.EmptyCartRejected | frontend/assets/js/app.js:400-403 | an empty cart stops the checkout before the prompt, and nothing is posted |
| Storefront.CheckoutConfirmation | frontend/assets/js/app.js:444-473 | a demonstration confirmation carries the cart's total and a delivery in three days, and nothing is posted; otherwise the confirmation is the server's order, after the request built from the cart |
| Storefront.Shop.constructor | frontend/assets/js/app.js:8-13 | the page starts with an empty cart, count 0, not loading |
| Storefront.Shop.UpdateCartUI | frontend/assets/js/app.js:280-286 | the badge count becomes the cart's article count |
| Storefront.Shop.AddToCart | frontend/assets/js/app.js:231-259 | in place, as `WithItemAdded` describes; the badge shows one more article |
| Storefront.Shop.RemoveFromCart | frontend/assets/js/app.js:261-278 | in place, as `WithoutLine` describes; the badge is refreshed only when a line went |
| Storefront.Shop.ShowLoading | frontend/assets/js/app.js:601-603 | the loading flag is set |
| Storefront.Shop.HideLoading | frontend/assets/js/app.js:628-629 | the loading flag is cleared |
| Storefront.Shop.ShowSuccessOrder | frontend/assets/js/app.js:498-499 | the cart is emptied and the badge shows 0 |
| Storefront.Shop.PlaceOrder | frontend/assets/js/app.js:444-480 | the cart is emptied only on a confirmation; a failure leaves cart and badge unchanged; the loading flag ends cleared |
| Storefront.Shop.ProceedToCheckout | frontend/assets/js/app.js:399-481 | the outcome and the request are those of `CheckoutResult` and `SentRequest`; a rejected, dismissed or failed checkout leaves the cart unchanged |

## Behaviour worth noting

These are points where the code does less, or something else, than a reader might expect. The model follows the code in each case, within the limits named under "## Left out".

- **Demonstration mode.** The checkout simulates an order only when `CONFIG.FALLBACK_MODE` is already set, which happens when loading the products failed (app.js:58). A network error during the checkout itself shows an error and keeps the cart (`Storefront.Placed`, `Unreachable`).
- **Loading flag.** `proceedToCheckout` never reads `isLoading`, so it does not stop a second checkout while one is in flight. `showLoading` returns early only for its own spinner. `Storefront.Shop.ProceedToCheckout` does not consult the flag either. Because the model runs a checkout as one step, it cannot show a second checkout overlapping the first (see `Storefront.Shop.ProceedToCheckout` under "## Left out").
- **Reconciliation tolerance.** The pre-save hook corrects a line subtotal, the subtotal or the total only when it is more than 0.01 away from the recomputed value. The proved invariants therefore hold to within a cent (`Orders.Reconciled`).
- **Order numbers past 999.** `padStart(3, '0')` does not truncate, so the 1000th order of a day gets a four-digit suffix and a 16-character number (`Orders.OrderNumberFormat`).
- **Timeline entries.** The hook writes "Statut changé en <status>", and only when Mongoose reports the status as modified. `updateStatus` pushes an entry of its own first, so one change on a stored order leaves two entries (`Orders.StatusUpdateLogsTwice`).
- **Dismissing the prompt.** `!customerData` treats a cancelled prompt and an empty line alike: the checkout ends silently (`Dismissed`).

## Left out

- backend/server.js is not part of this model. It is HTTP wiring with no logic of its own.
- Persistence is not modelled: `save()`, `countDocuments` (its result is a parameter), the uniqueness indexes, the static queries `findByCategory`, `findFeatured` and `searchProducts`, and Mongoose's ordering of validation against the hooks.
- The read-count-then-assign race in order numbering is a concurrency issue. A sequential model has no place for it.
- The clock (`Date.now`, `new Date`), `setTimeout`, `fetch`, `prompt`, `alert` and `localStorage` are parameters or are left out. `loadCartFromStorage`/`saveCartToStorage` and their JSON handling are left out.
- DOM rendering, notifications, animations, `escapeHtml`, `loadProducts` and the fallback product list are left out. The text of notifications is not modelled, except the filter label (`Storefront.FilterLabel`).
- The `isPaid`, `isDelivered` and `isInStock` virtuals are plain predicates (`Orders.Order.IsPaid`, `Orders.Order.IsDelivered`, `Products.InStock`) with nothing further to prove.
- `customerFullName` and the remainder of Order.js after `addTrackingNumber` are not modelled.
- Schema rules with no logic beyond a length bound are not modelled: product description, specifications, tags, SEO text, notes, the image URL pattern and `Number.isFinite` on prices. The order-side rules are stated as predicates (`Orders.ItemValid`, `Orders.CustomerValid`); the customer rules are compared with the page's checks by `Storefront.AcceptedMeetsSchemaIff`. No aggregate "all errors at once" validator is modelled.
- The `uppercase` setter on `orderNumber` and the `lowercase` setter on the order's e-mail are not applied. A generated order number is already upper-case.
- Prices, subtotals, totals, shipping, tax, discounts and amounts are exact reals. IEEE floating-point rounding, and the accumulation order of `reduce` over floats, are not modelled.
- Orders.ItemCount: an item's `quantity` is an integer in the model (`Orders.Item.quantity: int`). The schema types it as `Number` with only `min: 1` and `max: 100` (backend/models/Order.js:88-93), so it accepts 2.5, and the hook then multiplies the price by 2.5. Fractional quantities are not modelled, here or in the cart.
- Products.StockAfter: `stock` and the counters `views`, `addedToCart` and `purchased` are integers in the model. The schema types them as `Number` (backend/models/Product.js:78-83), so it accepts a stock of 3.5, and `updateStock` (backend/models/Product.js:193-196) accepts a fractional argument. Fractional stock and counter values are not modelled.
- Products.Lowered: `toLowerCase` and `normalize('NFD')` are modelled for ASCII and the Latin-1 supplement only. Other characters pass through both unchanged, and are then dropped by the `[^a-z0-9\s-]` filter.
- Products.SpacedWordsSlug: the concrete name "Café Élégant" is covered by general lemmas rather than by evaluating the pipeline on that string. `Products.AccentFoldsToBase` and `Products.FoldStripConcat` give "cafe elegant"; `Products.SpacedWordsSlug` then gives "cafe-elegant".
- Storefront.Shop.RemoveFromCart: the index is an integer. A fractional or non-numeric index, which `splice` would coerce, is not modelled.
- Storefront.Shop.ProceedToCheckout: the checkout runs as one step, with no other event between its waits. The waits are `fetch` (app.js:449), `response.json()` (app.js:455) and the 1.5-second `setTimeout` of the demonstration path (app.js:471). In the page, `addToCart`, `removeFromCart` or a second checkout can run during those waits. On success, `showSuccessOrder` then sets the cart to `[]` (app.js:498). So a line added during the wait is cleared without having been ordered: it was neither in the request (app.js:435-440) nor in the demonstration total (app.js:466). The model cannot reach that state. `Storefront.Shop.PlaceOrder` has the same limit.
- Storefront.Shop.PlaceOrder: in the server path the confirmation's total is the server's figure. The model does not relate it to the cart's total, because the server computes it.
- Storefront.FilterLabel: for a category named after a property inherited from `Object.prototype` (`constructor`, `toString`, `__proto__` and the rest), the notification shows that function's or object's text. The model says only that the label is then not "Tous les produits" (`None`), and not what text it is.
- Orders.Order.MarkAsPaid: `paidAt` is the clock parameter in milliseconds, not a `Date`.
