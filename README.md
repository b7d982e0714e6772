# Storefront checkout pipeline in Dafny

This project models the server side of an e-commerce storefront: the cart, the checkout gate in front of order creation, order capture and the small routines around them. Each source file becomes one module; its properties live in a companion `…Properties` module in the same file.

- **Shared pieces**
  - `Wrappers`: `Option` and `Result`.
  - `Http`: the JSON reply shape `{success, message, data}` with its status code.
  - `Text`: trimming, substring search, ASCII case mapping and decimal digits.
  - `Store`: the documents (products, carts, orders, addresses). It holds each collection as a class over a `map` from document id. The cart table keeps the invariant "at most one cart per user, and at most one line per product in each cart"; every cart handler preserves it.
- **`CartValidation`: the checkout gate.**
  - `SanitizeCartInput` keeps only `productId` (trimmed) and `quantity` (parsed, then clamped to 1..999). It also trims `userId`.
  - `ValidateCartSize` caps a cart at 50 lines and 100 units.
  - `ValidateCartBeforeCheckout` walks the lines with a loop that collects every error. It re-prices each line from the catalogue: the sale price if it is above 0, else the list price. It is proved equal to the specification function `Verdict`.
- **`OrderRoutes`**: chains sanitise → size check → validation → `createOrder` in the order the route declares them.
- **`CartController`**: the per-user cart table (`addToCart`, `getCart`, `updateQuantity`, `removeFromCart`).
- **`OrderController`**:
  - `createOrder` saves the order only after the payment facade succeeds.
  - `capturePayment` marks the order paid and decrements stock product by product. On success it deletes the cart and saves the order.
  - `getAllOrdersByUser` and `getOrderDetails` read the order table.
- **`LocalCart`**: the browser's guest cart. One storage slot is read, changed and written back by each operation.
- **`PaymentService` and `MockPayment`**: the payment facade dispatches on its mode. The mock builds PayPal-shaped responses.
- **`AdminOrderController`, `AdminProductController`, `AddressController`**: the admin order-status overwrite, the product edit merge rule and the address table.
- **`CheckAuth`**: the client's route guard decision table. It includes the `redirectAfterLogin` slot of session storage.
- **`Listing`**: the shop filter toggle and the query string built from the filters. Each section's option list is an object, so the aliasing created by the shallow copy is part of the model.
- **`AuthMiddleware`**: token selection (cookie before bearer header), user id derivation and the rejection paths.

Prices and stock are unbounded integers, and money is counted in integer units. The database, the payment provider's SDK, JWT verification, clocks and random draws are parameters or oracle values. Each handler runs as one atomic step.

Some behaviours of the code are worth knowing, because its own comments or a first reading suggest otherwise. The model follows the code in each case:

- **The client's total is stored.** `server/middleware/cartValidation.js:79-83` attaches the validated cart to the request with a comment saying it is "for use in controller". But `createOrder` (`server/controllers/shop/orderController.js:16-29`, `66-80`) reads the order's lines and `totalAmount` from `req.body`, and never reads `req.validatedCart`. The stored order therefore carries the client's `totalAmount` and the sanitised `{productId, quantity}` lines. `OrderRoutesProperties.StoredOrderKeepsClientTotal` proves this, and `ClientTotalWinsExample` exhibits a gate total of 80 next to a stored total of 1.
- **A failed mock capture does not fail the checkout.** `server/services/mockPaymentService.js:61-74` is commented as simulating a failure for an order id containing `FAIL`. It does so by returning a `FAILED` record, not by throwing. `capturePayment` (`server/controllers/shop/orderController.js:125-134`) only fails on a thrown error, and demo orders skip the provider entirely. So the sentinel never makes order capture fail (`PaymentService.DemoCaptureNeverThrows`).
- **Toggling a filter twice can change the query string.** It restores the query string when the option was not selected. When the option was already selected, removing it and adding it back moves it to the end of its list (`ListingProperties.ToggleSelectedTwiceMovesToEnd`); `ListingProperties.ToggleTwiceCanReorder` shows the query string changing.
- **Stock can go negative.** Capture subtracts each line's quantity with no lower bound (`OrderProperties.StockGoesNegative`). A product missing in the middle of the loop answers 404 after the earlier products were already decremented.

## Model

| member | source | states |
|---|---|---|
| CartValidation.SanitizeQuantity | server/middleware/cartValidation.js:153 | the sanitised quantity is always within 1..999: an in-range parse is kept, a larger one becomes 999, and an unparsable, zero or negative one becomes 1 |
| CartValidation.SanitizeCartInput | server/middleware/cartValidation.js:141-163 | the user id is trimmed; a missing or non-array cart passes through as it was; an array keeps its length and each line becomes exactly its trimmed product id and `SanitizeQuantity` of its parsed quantity; the cart id, total, address, statuses, payment method, dates and payment and payer ids are left alone |
| CartValidation.SanitizeItemIdempotent | server/middleware/cartValidation.js:150-156 | sanitising an already sanitised line changes nothing |
| CartValidation.SanitizeIdempotent | server/middleware/cartValidation.js:141-163 | running the sanitiser on its own output gives the same request |
| CartValidation.SanitizeDropsClientFields | server/middleware/cartValidation.js:150-156 | two requests that differ only in extra per-line fields (a client price, anything else) sanitise to the same request |
| CartValidation.ValidateCartSize | server/middleware/cartValidation.js:99-136 | the request proceeds exactly when the cart is not an array or has at most 50 lines and at most 100 units; more than 50 lines is the "different products" rejection, checked first |
| CartValidation.ValidateCartBeforeCheckout | server/middleware/cartValidation.js:10-93 | the loop's verdict equals the specification `Verdict`: empty or missing cart, or every line's errors and the lines that passed, or the server-priced items and their total |
| CartValidationProperties.EveryLineAccountedFor | server/middleware/cartValidation.js:25-61 | the errors and the validated items together number the lines; a line has an error exactly when it fails, and every failing line's own error is in the result wherever the line sits, so errors accumulate instead of stopping the scan |
| CartValidationProperties.NoErrorsIffAllAvailable | server/middleware/cartValidation.js:64-71 | the request is rejected exactly when some line's product is missing or short of stock |
| CartValidationProperties.ErrorsDescribeFailingLines | server/middleware/cartValidation.js:27-47 | each error names a failing line; a stock error carries the product's real stock and a quantity above it |
| CartValidationProperties.PassedItemsAreServerPriced | server/middleware/cartValidation.js:50-60 | every validated item's price is the catalogue's sale price when above 0, else its list price |
| CartValidationProperties.AllPassLineByLine | server/middleware/cartValidation.js:74-85 | with no errors the validated items are the lines, in order, each priced by the catalogue |
| CartValidationProperties.QuantityEqualToStockPasses | server/middleware/cartValidation.js:38-47 | a quantity equal to the stock passes |
| CartValidationProperties.ShortStockExample | server/middleware/cartValidation.js:38-47 | five units against a stock of three give one stock error with available stock 3 and nothing passed |
| CartValidationProperties.SalePriceExample | server/middleware/cartValidation.js:50-85 | whatever price the client sends, a product at 100 on sale at 80 validates at 80 |
| CartValidationProperties.SizeBoundaryPasses | server/middleware/cartValidation.js:111-129 | exactly 50 lines with exactly 100 units pass the size check |
| OrderRoutes.CreateOrderRoute | server/routes/shop/orderRoutes.js:18-24 | the request is sanitised, then size-checked (400 with the size message), then validated (400 "Cart is empty or invalid" for an empty cart; 400 "Some items in your cart are not available" with the error list and the lines that passed otherwise), and only a validated request reaches `createOrder`: a payment failure gives 500 with nothing stored, and a successful payment stores the order built from the sanitised body and answers 200 "Order created successfully" with the new id, the approval URL and the demo flag |
| OrderRoutesProperties.StoredOrderKeepsClientTotal | server/controllers/shop/orderController.js:16-29 | the order built from a sanitised request keeps the client's total and the sanitised lines |
| OrderRoutesProperties.OneLineVerdict | server/middleware/cartValidation.js:74-85 | a single in-stock line validates with total unit price × quantity |
| OrderRoutesProperties.ClientTotalWinsExample | server/controllers/shop/orderController.js:16-29 | a gate total of 80 and a stored order total of 1 for the same request |
| OrderController.CreateOrder | server/controllers/shop/orderController.js:6-110 | a non-array cart gives 500 and no order; a rejected payment gives 500 and no order; otherwise exactly one order is inserted, built from the body with the payment's demo flag, and the reply carries its id, the approval URL and the demo flag |
| OrderController.Paid | server/controllers/shop/orderController.js:138-142 | the captured order is paid and completed, carries the payment and payer ids and the update time, and keeps every other field |
| OrderController.CapturePayment | server/controllers/shop/orderController.js:112-177 | an unknown order is 404 with nothing changed; a provider capture that throws is 500 with nothing changed; otherwise the stock becomes `Decrement` of the order's lines, and only when every product existed is the cart deleted and the paid order saved (else 404, earlier decrements kept) |
| OrderController.GetAllOrdersByUser | server/controllers/shop/orderController.js:179-202 | the reply holds exactly the user's orders, or 404 when there are none |
| OrderController.GetOrderDetails | server/controllers/shop/orderController.js:204-227 | the stored order, or 404 for an unknown id |
| OrderProperties.DecrementOnlyTouchesStock | server/controllers/shop/orderController.js:145-157 | decrementing keeps the product ids, changes only `totalStock`, and leaves products no line names untouched |
| OrderProperties.CompleteIffAllPresent | server/controllers/shop/orderController.js:148-153 | the loop completes exactly when every line's product exists |
| OrderProperties.DecrementSubtractsUnits | server/controllers/shop/orderController.js:145-157 | after a complete run each product's stock dropped by exactly the units the order holds of it |
| OrderProperties.DecrementStopsAtFirstMissing | server/controllers/shop/orderController.js:148-153 | at the first missing product the loop stops, with exactly the decrements of the lines before it applied |
| OrderProperties.StockGoesNegative | server/controllers/shop/orderController.js:154-155 | a stock of 1 captured for three units completes and becomes -2 |
| CartController.View | server/controllers/shop/cartController.js:156-163 | a line shows its product's id, image, title and prices when the product exists, and null fields with the title "Product not found" otherwise, always with its quantity |
| CartController.Views | server/controllers/shop/cartController.js:210-217 | the views are the lines', one for one, in order |
| CartController.CartIdFor | server/controllers/shop/cartController.js:22-29 | the user's existing cart, or the new id when the user has none |
| CartController.AddToCart | server/controllers/shop/cartController.js:5-55 | missing or falsy fields (quantity 0 included) give 400; an unknown product gives 400; otherwise the user's cart, created if needed, gets the line added or incremented, with no stock check; the table keeps at most one cart per user and at most one line per product in each cart |
| CartController.GetCart | server/controllers/shop/cartController.js:57-114 | no user id is 400, no cart 404; otherwise the lines whose product is gone are dropped, in order, the cart is stored only if something was dropped, and the view covers the remaining lines |
| CartController.UpdateQuantity | server/controllers/shop/cartController.js:116-180 | missing fields 400, missing cart or line 404; otherwise exactly that line's quantity is set and nothing else changes |
| CartController.RemoveFromCart | server/controllers/shop/cartController.js:182-234 | missing fields 400, missing cart 404; otherwise every line of that product is removed and the rest keep their order |
| CartProperties.UnitsOfDistinct | server/controllers/shop/cartController.js:31-39 | with one line per product, a product's units are its line's quantity |
| CartController.AddLineKeepsOneLinePerProduct | server/controllers/shop/cartController.js:31-39 | adding keeps one line per product, the product then has a line, and the cart grows by one line only for a new product |
| CartController.WithoutKeepsDistinct | server/controllers/shop/cartController.js:199-203 | removing a product keeps at most one line per product and only keeps lines the cart had |
| CartController.AvailableKeepsDistinct | server/controllers/shop/cartController.js:80-88 | dropping the lines of vanished products keeps at most one line per product and only keeps lines the cart had |
| Store.PutKeepsCartsValid | server/controllers/shop/cartController.js:22-41 | saving a cart with one line per product under the user's own id keeps both table invariants |
| CartProperties.AddLineUnits | server/controllers/shop/cartController.js:31-39 | adding raises the product's units by the quantity and leaves every other product's units alone |
| CartProperties.SetLineUnits | server/controllers/shop/cartController.js:147 | setting a quantity makes it that product's units and leaves the other products' units alone |
| CartProperties.WithoutUnits | server/controllers/shop/cartController.js:200-203 | after removal the product has no line left and the other products' units are unchanged |
| CartProperties.WithoutAbsent | server/controllers/shop/cartController.js:200-203 | removing a product the cart does not hold leaves the lines unchanged |
| CartProperties.AvailableUnits | server/controllers/shop/cartController.js:81-83 | filtering keeps only existing products, with their units intact |
| CartProperties.AvailableAppend | server/controllers/shop/cartController.js:81-83 | the filter works line by line, preserving order |
| CartProperties.AvailableAllPresent | server/controllers/shop/cartController.js:85-88 | the filter keeps every line exactly when every product exists, which is when the count does not shrink, so the save happens exactly when a line was dropped |
| LocalCart.Read | client/src/utils/localCart.ts:13-21 | an absent or unreadable slot reads as the empty list |
| LocalCart.IndexOf | client/src/utils/localCart.ts:39 | the first entry with that product, or -1 when there is none |
| LocalCart.GuestCartStorage.Get | client/src/utils/localCart.ts:13-21 | the stored list, or empty when the slot is empty or unreadable |
| LocalCart.GuestCartStorage.Set | client/src/utils/localCart.ts:26-32 | the slot then holds exactly the given list |
| LocalCart.GuestCartStorage.Add | client/src/utils/localCart.ts:37-48 | the slot holds `Added` of what was read: the existing entry's quantity raised, or a new entry appended |
| LocalCart.GuestCartStorage.Update | client/src/utils/localCart.ts:53-65 | an absent product leaves the slot untouched; otherwise the entry is removed when the quantity is at most 0 and set otherwise, and the list is written back |
| LocalCart.GuestCartStorage.Remove | client/src/utils/localCart.ts:70-73 | the slot holds the read list without that product's entries |
| LocalCart.GuestCartStorage.Clear | client/src/utils/localCart.ts:78-84 | the slot is emptied |
| LocalCart.GuestCartStorage.GetCount | client/src/utils/localCart.ts:89-91 | the sum of the stored quantities |
| LocalCart.GuestCartStorage.HasItems | client/src/utils/localCart.ts:96-98 | true exactly when a non-empty list is stored |
| LocalCart.ClearThenGet | client/src/utils/localCart.ts:13-21 | after clearing, reading gives the empty list |
| LocalCartProperties.CountAppend | client/src/utils/localCart.ts:89-91 | the count of two lists joined is the sum of their counts |
| LocalCartProperties.CountUpdate | client/src/utils/localCart.ts:58-62 | replacing or deleting one entry changes the count by exactly that entry's quantities |
| LocalCartProperties.AddedEffects | client/src/utils/localCart.ts:37-48 | adding keeps product ids unique and raises the count by the quantity; an existing entry is incremented in place, a new one is appended at the end with the time |
| LocalCartProperties.UpdateToZeroRemoves | client/src/utils/localCart.ts:58-59 | a quantity of at most 0 deletes the entry, leaves the product absent and lowers the count by its quantity |
| LocalCartProperties.UpdatePositiveSets | client/src/utils/localCart.ts:60-62 | a positive quantity replaces the entry's quantity, keeps uniqueness and adjusts the count by the difference |
| LocalCartProperties.RemovedEffects | client/src/utils/localCart.ts:70-73 | after removal the product is absent, the count drops by its quantity, and removing an absent product changes nothing |
| LocalCartProperties.RemovedAppend | client/src/utils/localCart.ts:71 | removal filters entry by entry, keeping order |
| LocalCartProperties.CountOfUnique | client/src/utils/localCart.ts:39-42 | with unique product ids, a product's quantity is that of its single entry |
| MockPayment.GenerateOrderId | server/services/mockPaymentService.js:10-12 | the order id starts with "DEMO-" followed by the timestamp |
| MockPayment.GeneratePaymentId | server/services/mockPaymentService.js:14-16 | "PAY-" followed by at most 9 characters, none a lower-case letter |
| MockPayment.GeneratePayerId | server/services/mockPaymentService.js:18-20 | "DEMO-PAYER-" followed by at most 5 characters, none a lower-case letter |
| MockPayment.CreateOrder | server/services/mockPaymentService.js:28-51 | a "DEMO-" order in state CREATED with an approve link and a self link for that id |
| MockPayment.CapturePayment | server/services/mockPaymentService.js:58-117 | the id is echoed; the capture is declined (FAILED, PAYMENT_DECLINED) exactly when the id contains "FAIL"; otherwise it is COMPLETED with one final COMPLETED capture and the generated payment and payer ids |
| MockPayment.GetOrderDetails | server/services/mockPaymentService.js:124-152 | the id is echoed with status CREATED and intent CAPTURE |
| MockPayment.DetailsAgreeWithCreation | server/services/mockPaymentService.js:35-50 | the details of a created order report its status and its approve link |
| MockPayment.FreshIdCaptures | server/services/mockPaymentService.js:10-12 | an id the mock generated never triggers the decline |
| PaymentService.Construct | server/services/paymentService.js:17-25 | the mode is the environment value when set and non-empty, else "sandbox" |
| PaymentService.GetService | server/services/paymentService.js:31-33 | the mock exactly in demo mode |
| PaymentService.IndexOfApproval | server/services/paymentService.js:59-61 | the first link with rel "approval_url", or -1 when there is none |
| PaymentService.ApprovalURL | server/services/paymentService.js:59-61 | present exactly when the first "approval_url" link has a non-empty href, and then it is that href |
| PaymentService.CreatePayment | server/services/paymentService.js:40-70 | in demo mode a demo result with no approval URL and the mock order's id; otherwise the provider's error is a rejection carrying its message, and a payment resolves as non-demo with the approval URL from its links |
| PaymentService.CapturePayment | server/services/paymentService.js:92-100 | in demo mode the mock's response for that id; it throws exactly when not in demo mode and the provider throws |
| PaymentService.MockLinksHaveNoApprovalURL | server/services/mockPaymentService.js:35-50 | the mock's links contain no "approval_url" link |
| PaymentService.DemoCaptureNeverThrows | server/services/paymentService.js:92-100 | in demo mode capture never throws, and it is declined exactly when the id contains "FAIL" |
| AdminOrderController.GetAllOrdersOfAllUsers | server/controllers/admin/orderController.js:3-24 | always 200 with every order, even when there are none |
| AdminOrderController.GetOrderDetailsForAdmin | server/controllers/admin/orderController.js:25-47 | the stored order, or 404 for an unknown id |
| AdminOrderController.WithStatus | server/controllers/admin/orderController.js:59-62 | only the order status changes, to any given value; an absent value changes nothing |
| AdminOrderController.UpdateOrderStatus | server/controllers/admin/orderController.js:48-78 | an unknown id is 404 with nothing changed; otherwise the status is overwritten and nothing else in the table changes |
| AdminProductController.TextOr | server/controllers/admin/productController.js:127-135 | a non-empty text replaces the field; an absent or empty one keeps it |
| AdminProductController.NumberOr | server/controllers/admin/productController.js:133-134 | the number 0, an empty string or an absent value keeps the field; a non-zero number or a numeric string sets it |
| AdminProductController.PriceOr | server/controllers/admin/productController.js:131-132 | an empty string sets the price to 0; anything else follows the number rule |
| AdminProductController.AddProduct | server/controllers/admin/productController.js:44-84 | the submitted product is inserted under a new id, 201 |
| AdminProductController.EditProduct | server/controllers/admin/productController.js:106-151 | an unknown id is 400 with nothing changed; a non-numeric numeric field is 400 "Error editing product" with nothing changed; otherwise the product becomes `Merge` of the patch |
| AdminProductController.DeleteProduct | server/controllers/admin/productController.js:154-176 | an unknown id is 400; otherwise exactly that product is removed |
| AdminProductProperties.EmptyPatchKeepsProduct | server/controllers/admin/productController.js:127-135 | an empty edit changes nothing |
| AdminProductProperties.MergeIdempotent | server/controllers/admin/productController.js:127-135 | applying the same edit twice equals applying it once |
| AdminProductProperties.MergeFieldsComeFromEither | server/controllers/admin/productController.js:127-135 | every merged field is either the old value or the one submitted |
| AdminProductProperties.StockZeroNumberKeepsOld | server/controllers/admin/productController.js:133 | a non-zero stock becomes 0 only through the string "0", never the number 0 |
| AdminProductProperties.PriceBlankVersusZero | server/controllers/admin/productController.js:131 | an empty-string price becomes 0 but the number 0 keeps the old price |
| AddressController.Patched | server/controllers/shop/addressController.js:64-74 | each given field replaces the stored one and every other field is kept |
| AddressController.AddAddress | server/controllers/shop/addressController.js:3-34 | any empty field gives 400 with nothing stored; otherwise the address is inserted, 201 |
| AddressController.FetchAllAddress | server/controllers/shop/addressController.js:36-57 | no user id is 400; otherwise exactly the user's addresses |
| AddressController.EditAddress | server/controllers/shop/addressController.js:59-92 | a missing id is 400; an unknown address id is 404; otherwise the address with that id is patched whoever owns it |
| AddressController.DeleteAddress | server/controllers/shop/addressController.js:94-124 | the address is removed only when both its id and its owner match; otherwise 404 and nothing changes |
| CheckAuth.Guard | client/src/components/common/check-auth.tsx:8-69 | the guard's view and the session's stored redirect afterwards are those of the decision table `Decide` |
| CheckAuthProperties.StoredRedirectWins | client/src/components/common/check-auth.tsx:17-24 | on an auth page a logged-in user with a stored redirect goes there and the stored value is cleared |
| CheckAuthProperties.AuthPageDefaults | client/src/components/common/check-auth.tsx:26-33 | with no stored redirect: admin to the dashboard, other users to the shop home, logged-out visitors see the page |
| CheckAuthProperties.RootRedirects | client/src/components/common/check-auth.tsx:37-42 | "/" sends a logged-in admin to the dashboard and everyone else to the shop home |
| CheckAuthProperties.PublicPages | client/src/components/common/check-auth.tsx:11-14 | public pages render for everyone except a logged-in admin, and never touch the stored redirect |
| CheckAuthProperties.LoggedOutProtectedPage | client/src/components/common/check-auth.tsx:54-57 | a logged-out visitor on a protected page goes to login with the path stored |
| CheckAuthProperties.RoleChecks | client/src/components/common/check-auth.tsx:60-68 | a non-admin on /admin goes to the unauth page, an admin on /shop to the dashboard, and otherwise the page renders |
| CheckAuthProperties.AdminPagesNeedAdmin | client/src/components/common/check-auth.tsx:60-62 | an /admin page renders only for a logged-in admin, unless it is also an auth or public page |
| CheckAuthProperties.LoggedOutSeesOnlyOpenPages | client/src/components/common/check-auth.tsx:54-57 | logged out, only auth and public pages render |
| CheckAuthProperties.StoredRedirectChanges | client/src/components/common/check-auth.tsx:20-22 | the stored redirect changes only when it is consumed on an auth page or written on a logged-out protected page |
| CheckAuthProperties.AdminHomeRendersForAdmin | client/src/components/common/check-auth.tsx:60-68 | the dashboard renders for an admin |
| CheckAuthProperties.ShopHomeRendersForShoppers | client/src/components/common/check-auth.tsx:45-51 | the shop home renders for everyone but a logged-in admin |
| CheckAuthProperties.LoginPageRendersLoggedOut | client/src/components/common/check-auth.tsx:17-33 | the login page renders for a logged-out visitor |
| CheckAuthProperties.UnauthPageRendersForNonAdmin | client/src/components/common/check-auth.tsx:60-68 | the unauth page renders for a logged-in non-admin |
| AuthMiddleware.Claim | server/middlewares/auth/authMiddleware.js:24 | a claim is present exactly when the payload has it |
| AuthMiddleware.BearerToken | server/middlewares/auth/authMiddleware.js:9-12 | a token exactly when the header starts with "bearer " in any case, and it is the header from index 7 on |
| AuthMiddleware.Token | server/middlewares/auth/authMiddleware.js:14 | a non-empty cookie token wins, else the bearer token |
| AuthMiddleware.UserId | server/middlewares/auth/authMiddleware.js:24 | `id` when truthy, else `_id` |
| AuthMiddleware.Authenticate | server/middlewares/auth/authMiddleware.js:5-41 | a request is accepted exactly when a token is present, it verifies, the payload yields a user id through `id` or else `_id`, and that user exists; the user handed on is the payload with `id` set to that id and every other claim kept |
| AuthMiddlewareProperties.CookieTakesPrecedence | server/middlewares/auth/authMiddleware.js:7-14 | with a cookie token the authorization header makes no difference |
| AuthMiddlewareProperties.BearerIgnoresCase | server/middlewares/auth/authMiddleware.js:9-12 | for all headers: two headers that agree up to ASCII case on their first seven characters and exactly after them give the same token |
| AuthMiddlewareProperties.BearerExamples | server/middlewares/auth/authMiddleware.js:9-12 | examples: "BeArEr abc" gives "abc", "Bearer " gives "", "Token abc" and "Bearer" give none |
| AuthMiddlewareProperties.NoTokenRejectedWithoutVerify | server/middlewares/auth/authMiddleware.js:16-18 | no token is rejected whatever the verifier and the user table say |
| Listing.EncodeURIComponent | client/src/pages/shopping-view/listing.tsx:55 | the output is never shorter than the input and at most 12 characters per input character; it has the input's length exactly when every character is unreserved, and then it is the input itself |
| Listing.Utf8 | client/src/pages/shopping-view/listing.tsx:55 | 1 to 4 bytes, each below 256, and ASCII encodes as itself |
| Listing.PercentBytes | client/src/pages/shopping-view/listing.tsx:55 | three characters per byte |
| Listing.Position | client/src/pages/shopping-view/listing.tsx:94 | the first index of the option, or -1 exactly when it is absent |
| Listing.KeyIndex | client/src/pages/shopping-view/listing.tsx:89 | the first section with that key, or -1 exactly when there is none |
| Listing.Snapshot | client/src/pages/shopping-view/listing.tsx:88 | the filter state is each section's key with the current contents of its option list |
| Listing.CreateUrlQueryString | client/src/pages/shopping-view/listing.tsx:49-60 | the loop's result is `QueryOf` the current filters |
| Listing.HandleFilter | client/src/pages/shopping-view/listing.tsx:84-104 | the new filters are `Toggled` of the old ones; an empty option changes nothing; toggling in an existing section mutates that shared list, so the old filters see the change too; an absent section is appended as a fresh one-option list |
| ListingProperties.EncodedIsSafe | client/src/pages/shopping-view/listing.tsx:55 | an encoded component contains only unreserved characters, "%" and hex digits, so never a raw "&" or "=" |
| ListingProperties.PercentBytesAreSafe | client/src/pages/shopping-view/listing.tsx:55 | percent-encoding yields only "%" and upper-case hex digits |
| ListingProperties.PairsAppend | client/src/pages/shopping-view/listing.tsx:51-57 | the pairs of joined filter states are the joined pairs |
| ListingProperties.JoinEmpty | client/src/pages/shopping-view/listing.tsx:59 | joining non-empty pairs gives "" exactly when there are none |
| ListingProperties.PairsNonEmpty | client/src/pages/shopping-view/listing.tsx:52-57 | every pair is non-empty, and there are none exactly when every section is empty |
| ListingProperties.EmptyQueryIffNoOptions | client/src/pages/shopping-view/listing.tsx:52-59 | the query string is "" exactly when no option is selected |
| ListingProperties.EmptySectionSkipped | client/src/pages/shopping-view/listing.tsx:53 | an empty section contributes nothing to the query string |
| ListingProperties.ToggleTwiceAbsentSection | client/src/pages/shopping-view/listing.tsx:91-92 | toggling an option of a new section twice leaves an empty section and the same query string |
| ListingProperties.ToggleTwiceUnselectedOption | client/src/pages/shopping-view/listing.tsx:94-99 | toggling an unselected option twice restores the filters exactly |
| ListingProperties.ToggleTwiceRestoresQuery | client/src/pages/shopping-view/listing.tsx:84-104 | toggling an unselected option twice restores the query string |
| ListingProperties.ToggleSelectedTwiceMovesToEnd | client/src/pages/shopping-view/listing.tsx:94-99 | for every list holding the option once: toggling it twice removes it from its place and appends it at the end |
| ListingProperties.ToggleTwiceCanReorder | client/src/pages/shopping-view/listing.tsx:94-99 | for example, toggling the selected "a" of ["a", "b"] twice gives ["b", "a"], and the query string "brand=a%2Cb" becomes "brand=b%2Ca" |

## Left out

- PayPal payload formatting (server/controllers/shop/orderController.js:31-61, `parseFloat`/`toFixed`) and the PayPal SDK: the provider's create and capture outcomes are parameters.
- The facade's `createOrder` and `getOrderDetails` (server/services/paymentService.js:77-85, 107-110) only forward to the selected backend. The mock side of each is `MockPayment.CreateOrder` and `MockPayment.GetOrderDetails`; the PayPal side is the SDK.
- `isDemoMode` and `getMode` are modelled as `PaymentService.IsDemoMode` and `PaymentService.GetMode`. They read the mode and have no contract of their own beyond that.
- Image upload and `handleImageUpload` (server/controllers/admin/productController.js:3-41) call Cloudinary. `fetchAllProducts` (87-103) is a plain read and is not part of this model.
- JWT verification is a partial-function parameter, and user lookup is a set of ids. Password hashing and signing are not part of this model.
- Clocks and random draws (`Date.now`, `Math.random`) and the mock's delays become parameters or are dropped.
- Requests racing on cart and stock read-modify-write are not modelled; each handler is one atomic step.
- The `catch` branches that answer 500 on a database failure are not modelled, except the cast failure of `editProduct`, which is. The `error` fields of 500 replies are left out too.
- Database schema validation and id casting are not modelled. An id is any string.
- Collections are maps, so the order of listed orders and addresses is not modelled.
- The order of keys in `Object.entries` is modelled as insertion order. JavaScript puts integer-like keys first; that is not modelled.
- A filter value that is not an array is not modelled.
- The filters' copy to session storage (client/src/pages/shopping-view/listing.tsx:103) and the shop's other listing logic are left out.
- LocalCart: a failing `localStorage` write and the stored text "null" are not modelled. An unparsable slot reads as empty.
- LocalCart: a guest item's `quantity` is a TypeScript `number`, which may be fractional; `add` and `update` pass such a value through unchanged. The model's quantities are integers, so fractional quantities are not modelled.
- CartValidation.ValidateCartSize: sums the sanitised quantities. After sanitising, every line has a quantity, so the `|| 0` default for a missing quantity is never reached in the route.
- CartValidation.SanitizeCartInput: the `try/catch` around a `null` line (on which `String(item.productId)` throws and the body stays unsanitised) is not modelled. A line's `productId` is always a string: a line without one, which the code turns into the text "undefined" through `String(item.productId).trim()`, is not modelled.
- CartController: a non-numeric quantity in the cart requests is not modelled. Quantities are integers, and only the falsy value 0 is rejected.
- AuthMiddleware: a token payload is a map from claim name to string. Numeric claims such as `iat` and `exp`, and a non-string `id` (a number 0, which is falsy, say), are not expressible; only the empty string stands for a falsy claim.
- AuthMiddleware: the assignment of `req.user` before the user lookup is folded into the accepted result. A rejected request's partly set `req.user` is not modelled.
- `validateCartBeforeCheckout` sets `req.validatedCart`. The route's `createOrder` never reads it, so the model returns the verdict and drops it.
