# Storefront orders and cart button, in Dafny

This project models the sequential logic of a small storefront:

- **Discount pricing.** The unit price after discount is the price minus the discount
  amount. The discount amount is `price * dis / 100` rounded up. An omitted discount means 1%.
- **Cash-on-delivery checkout.** Each cart line becomes exactly one order. The orders are
  inserted, then the requesting user's cart documents are deleted and that user's
  `shopping_cart` list is emptied.
- **Card-payment session request.** Each cart line becomes one line-item descriptor. The
  descriptor carries the discounted unit amount in minor units, the line's quantity, and an
  adjustable quantity with minimum 1.
- **Payment webhook.** A `checkout.session.completed` event builds one order per listed line
  item in a loop and inserts them. The user's cart is cleared only when at least one order
  was inserted. Any other event type changes nothing. An event whose handling completes is
  acknowledged; a failed payment-processor or database call aborts the handler before that.
  Only the first page of the session's line-item listing is read.
- **Add-to-cart button.** The button finds the product's cart entry. Add, Increase and
  Decrease each set a per-button loading mark, send their request, and clear the mark
  whatever the reply. A control is disabled exactly while its own operation is loading.

Files:

- `wrappers.dfy`: `Option` and `Result`.
- `object_id.dfy`: order numbers. Each is `ORD-` followed by a 24-hex-digit document id
  drawn from a counter. It proves that distinct ids give distinct order numbers.
- `order_controller.dfy`: pricing, the payload and line-item builders, the webhook's loop,
  and the `Store` class. `Store` holds the order store, the cart store, the users' cart
  lists and the id generator. Cash on delivery and the webhook are its methods.
- `add_to_cart_button.dfy`: the `Button` class with its loading mark, the cart entry found
  by the effect, and a log of sent requests. Each logged request records the loading mark
  in force when it was sent.

Amounts on orders are exact rationals (`real`). Cash-on-delivery amounts are quantity times
price. Webhook amounts are the processor's total in minor units divided by 100.
Processor replies are parameters: the listed line items and the products retrieved for them.
Cart-service replies are parameters too. The id generator is a counter in the store.

Two things the model makes visible about the source, as it is written:

- Cash on delivery charges the **undiscounted** price (`CashOnDeliveryChargesCartTotal`).
  Card payment charges the **discounted** price (`CardCheckoutRoundTrip`).
- Delivering the same completed event twice stores its orders twice, because
  `WebhookStripe` appends on every call. Nothing in the source deduplicates events.

The cash-on-delivery request's own `totalAmt` and `subTotalAmt` are read but never used;
amounts come from the cart lines.

## Model

| member | source | states |
|---|---|---|
| `OrderController.PriceWithDiscount` | server/controllers/order.controller.js:53-56 | `price - r` is the least whole number of units that is at least `price * dis / 100`, with `dis` defaulting to 1 |
| `OrderController.DiscountedPriceInRange` | server/controllers/order.controller.js:54-55 | for price ≥ 0 and discount in 0..100 the discounted price lies between 0 and the price |
| `OrderController.DiscountMonotone` | server/controllers/order.controller.js:54-55 | a larger discount never yields a larger price |
| `OrderController.DiscountExamples` | server/controllers/order.controller.js:53-56 | 10% off 1000 is 900; omitted discount on 1000 gives 990; 10% off 999 is 899 (discount rounded up) |
| `OrderController.CashOnDeliveryPayload` | server/controllers/order.controller.js:14-28 | one order per cart line in order, with the line's product id, name, image and quantity, empty payment id, status `CASH ON DELIVERY`, the request's address, an `ORD-` order number from consecutive fresh ids, and subtotal = total = quantity × price |
| `OrderController.CashOnDeliveryChargesCartTotal` | server/controllers/order.controller.js:26-27 | the cash-on-delivery orders' totals add up to the cart's undiscounted total |
| `OrderController.DistinctOrderNumbers` | server/controllers/order.controller.js:16 | orders numbered from consecutive fresh ids have pairwise distinct order numbers |
| `OrderController.CheckoutLineItems` | server/controllers/order.controller.js:65-82 | one descriptor per cart line in order: unit amount = discounted price × 100, currency `inr`, product name, images and id metadata, the line's quantity, adjustable quantity enabled with minimum 1 |
| `OrderController.CheckoutAmountsInRange` | server/controllers/order.controller.js:75 | each unit amount is between 0 and the list price in minor units when the discount is a percentage |
| `OrderController.PaymentSessionParams` | server/controllers/order.controller.js:59-96 | fails exactly when the user is unknown; otherwise carries the user's e-mail, user and address metadata, the cart's line items, card payment, and the success and cancel URLs |
| `OrderController.WebhookPayload` | server/controllers/order.controller.js:112-140 | no orders when the listing is absent or empty; otherwise one order per listed line item in order, each with the session's user, address, payment intent and payment status, the metadata product id, and total = subtotal = line total / 100 |
| `OrderController.GetOrderProductItems` | server/controllers/order.controller.js:112-140 | the loop that pushes one payload per line item returns exactly the webhook payload, and nothing for an absent or empty listing |
| `OrderController.CardCheckoutRoundTrip` | server/controllers/order.controller.js:65-139 | if the processor lists every requested line at the requested quantity, a completed card checkout yields one order per cart line, for its product and quantity, the requesting user and address, charging discounted price × quantity |
| `OrderController.WithoutUser` | server/controllers/order.controller.js:33 | deleting by user keeps exactly the cart documents of other users |
| `OrderController.CartOf` | server/controllers/order.controller.js:33 | a user's cart documents are exactly the store's documents with that user id |
| `OrderController.DeleteEmptiesUserCart` | server/controllers/order.controller.js:33 | after the delete the user has no cart documents |
| `OrderController.DeleteKeepsOtherCarts` | server/controllers/order.controller.js:33 | after the delete every other user's cart documents are unchanged and in the same order |
| `OrderController.ClearShoppingCart` | server/controllers/order.controller.js:34 | the user's `shopping_cart` list becomes empty if the user exists; every other user's list is unchanged |
| `OrderController.AppendKeepsIssuedInOrder` | server/controllers/order.controller.js:16 | appending orders numbered from the next fresh ids keeps every stored order number tied to a strictly increasing issued id |
| `OrderController.Store.OrderNumbersUnique` | server/controllers/order.controller.js:16 | no two stored orders share an order number while the id space is not exhausted |
| `OrderController.Store.InsertMany` | server/controllers/order.controller.js:30 | appends the payload to the order store and advances the id generator past its ids |
| `OrderController.Store.ClearCart` | server/controllers/order.controller.js:33-34 | deletes the user's cart documents and empties the user's `shopping_cart`; orders unchanged |
| `OrderController.Store.CashOnDelivery` | server/controllers/order.controller.js:8-50 | on a successful insert: stores and returns the cash-on-delivery payload and clears the requester's cart; on a failed insert: stores nothing and changes no cart |
| `OrderController.Store.WebhookStripe` | server/controllers/order.controller.js:143-175 | a completed session stores its payload and clears the session user's cart iff the payload is non-empty; any other event changes nothing; the handler acknowledges once it completes |
| `ObjectIds.HexRoundTrip` | server/controllers/order.controller.js:16 | reading a printed document id back gives the id modulo 16^width |
| `ObjectIds.OrderIdText` | server/controllers/order.controller.js:16 | an order number is `ORD-` followed by the 24-digit printed document id |
| `ObjectIds.OrderIdsDistinct` | server/controllers/order.controller.js:16 | distinct document ids below 16^24 give distinct order numbers |
| `AddToCartButton.FirstIndexOf` | client/src/components/AddToCartButton.jsx:21 | the position of the first entry for the product, and no earlier entry is for it |
| `AddToCartButton.FindCartItem` | client/src/components/AddToCartButton.jsx:20-23 | the first cart entry whose product is the button's product, or nothing exactly when there is none |
| `AddToCartButton.IncreasedQuantity` | client/src/components/AddToCartButton.jsx:53 | the current quantity (0 if absent) plus one |
| `AddToCartButton.DecreaseRequest` | client/src/components/AddToCartButton.jsx:72-81 | delete exactly when the quantity is 1, otherwise update the same entry to one less; never an update to 0 |
| `AddToCartButton.IncreaseThenDecrease` | client/src/components/AddToCartButton.jsx:53-81 | an increase followed by a decrease asks for the original quantity |
| `AddToCartButton.Render` | client/src/components/AddToCartButton.jsx:96-134 | quantity controls exactly when the product has an entry, the Add button otherwise; a control is disabled exactly when the loading mark is its own operation |
| `AddToCartButton.AtMostOneDisabled` | client/src/components/AddToCartButton.jsx:101-126 | at most one control is disabled at a time |
| `AddToCartButton.Button.NothingDisabledBetweenRuns` | client/src/components/AddToCartButton.jsx:42-44 | once a handler has finished no control is disabled |
| `AddToCartButton.Button.constructor` | client/src/components/AddToCartButton.jsx:16-23 | a mounted button has no loading mark and shows the entry found in the cart |
| `AddToCartButton.Button.CartChanged` | client/src/components/AddToCartButton.jsx:20-23 | when the cart changes the shown entry is looked up again |
| `AddToCartButton.Button.HandleAddToCart` | client/src/components/AddToCartButton.jsx:26-45 | sends an add request for this product while Add is loading, then a refetch only on a successful reply, and clears the loading mark whatever the reply |
| `AddToCartButton.Button.HandleIncreaseQty` | client/src/components/AddToCartButton.jsx:48-64 | sends an update to quantity + 1 for the same entry while Increase is loading; no request without an entry; clears the loading mark |
| `AddToCartButton.Button.HandleDecreaseQty` | client/src/components/AddToCartButton.jsx:67-88 | while Decrease is loading, deletes the entry at quantity 1 and otherwise updates it to one less; no request without an entry; clears the loading mark |

## Left out

- Payment-processor calls (session creation, listing a session's line items, retrieving a product): their results are parameters. The session object returned to the client is not modelled.
- `getOrderDetailsController` (order.controller.js:178-199): a database query with sorting and population, no logic of its own.
- Floating point: prices, discounts and amounts are integers or exact rationals. JavaScript `Number` conversion and float division (`amount_total / 100`) are not modelled.
- A `discount` of `null` (which `Number` turns into 0) is not distinguished. The model has only an omitted discount (default 1) or a number.
- `OrderController.Store.CashOnDelivery`: the insert is all-or-nothing. Partial inserts and failures of the later cart delete or user update are not modelled. A cart line without a populated product is not modelled either.
- `OrderController.Store.WebhookStripe`: failing calls are not modelled. The handler has no catch. If listing the line items, retrieving a product, the insert, or a cart update rejects, the handler stops there and never acknowledges. A rejection before the insert stores nothing. The model covers only runs in which every call succeeds.
- `OrderController.CardCheckoutRoundTrip`: the handler lists the session's line items with no limit and never checks for more pages (order.controller.js:152, 115-116), so it reads only the first page. A paid session with more lines than one page gets orders for the first page only, and its cart is still cleared. The lemma assumes the listing holds every requested line.
- Document ids come from a counter printed as 24 hex digits, not from a timestamp, machine and random bytes. Uniqueness is proved while fewer than 16^24 ids have been issued.
- Webhook signature verification: the secret is read but never used, so there is no behaviour to model. Console logging is left out too.
- HTTP response envelopes: only success or failure and the acknowledgement are modelled.
- Toast notifications, event `preventDefault`/`stopPropagation`, React rendering details and styling are left out. The increase and decrease replies only choose a toast, so they are not parameters.
- The cart-service helpers `updateCartItem`, `deleteCartItem` and `fetchCartItem` are not part of this model. Their requests are logged, and their effect on the store arrives through `CartChanged`.
- Concurrent clicks and interleaved requests: each handler runs to completion before the next event.
- `client/src/pages/MyOrders.jsx` and `client/src/utils/DisplayPriceInRupees.js`: display and locale formatting only.
