/**
 * The order controller of the storefront server: discount pricing, the
 * cash-on-delivery checkout, the card-payment session request, and the
 * payment-processor webhook that turns a completed checkout session into
 * orders. The order store, the cart store and the users' `shopping_cart`
 * lists are the fields of `Store`; the payment processor's answers
 * (listed line items, retrieved products) are parameters.
 */
module OrderController {
  import opened Wrappers
  import opened ObjectIds

  type UserId = string
  type AddressId = string
  type ProductId = string

  // ---------------------------------------------------------------------------
  // Discount pricing
  // ---------------------------------------------------------------------------

  /** The discount percentage used when a product has none. */
  const DefaultDiscount: int := 1

  /** The percentage applied: the given one, or the default when the argument is undefined. */
  function DiscountPercent(dis: Option<int>): int
  {
    match dis
    case None => DefaultDiscount
    case Some(d) => d
  }

  /** The smallest integer `c` with `b * c >= a` (that is, the ceiling of `a / b`). */
  function CeilDiv(a: int, b: int): (c: int)
    requires b > 0
    ensures b * c >= a && b * (c - 1) < a
  {
    var q, r := (-a) / b, (-a) % b;
    assert -a == b * q + r && 0 <= r < b;
    assert b * (-q) == a + r;
    assert b * (-q - 1) == a + r - b;
    -q
  }

  /**
   * The unit price after discount: the price minus the discount amount, where
   * the discount amount is `price * dis / 100` rounded UP to a whole unit.
   * The ensures says exactly that: `price - r` is the least whole number of
   * units that is at least `price * dis / 100`.
   */
  function PriceWithDiscount(price: int, dis: Option<int>): (r: int)
    ensures 100 * (price - r) >= price * DiscountPercent(dis)
    ensures 100 * (price - r - 1) < price * DiscountPercent(dis)
  {
    price - CeilDiv(price * DiscountPercent(dis), 100)
  }

  /** A non-negative price with a discount between 0 and 100 percent stays between 0 and the price. */
  lemma DiscountedPriceInRange(price: int, dis: Option<int>)
    requires price >= 0 && 0 <= DiscountPercent(dis) <= 100
    ensures 0 <= PriceWithDiscount(price, dis) <= price
  {
    var d := DiscountPercent(dis);
    assert 0 <= price * d <= price * 100;
  }

  /** A larger discount never gives a larger price. */
  lemma DiscountMonotone(price: int, d1: int, d2: int)
    requires price >= 0 && d1 <= d2
    ensures PriceWithDiscount(price, Some(d2)) <= PriceWithDiscount(price, Some(d1))
  {
  }

  /** Worked values: 10% off 1000 is 900; with the discount omitted, 1% off 1000 is 990. */
  lemma DiscountExamples()
    ensures PriceWithDiscount(1000, Some(10)) == 900
    ensures PriceWithDiscount(1000, None) == 990
    ensures PriceWithDiscount(999, Some(10)) == 899
  {
  }

  // ---------------------------------------------------------------------------
  // Records
  // ---------------------------------------------------------------------------

  /** A product as populated into a cart line (`productId` after population). */
  datatype Product = Product(id: ProductId, name: string, image: seq<string>, price: int, discount: Option<int>)

  /** One element of the request's `list_items`: a cart line with its product populated. */
  datatype CartLine = CartLine(product: Product, quantity: int)

  /** The product snapshot stored with an order. */
  datatype ProductDetails = ProductDetails(name: string, image: seq<string>, quantity: int)

  /** An order document. Amounts are in whole currency units, as exact rationals. */
  datatype Order = Order(
    userId: UserId,
    orderId: string,
    productId: ProductId,
    productDetails: ProductDetails,
    paymentId: string,
    paymentStatus: string,
    deliveryAddress: AddressId,
    subTotalAmt: real,
    totalAmt: real)

  /** A cart document of the cart store; each belongs to one user. */
  datatype CartProduct = CartProduct(id: string, userId: UserId, productId: ProductId, quantity: int)

  const CashOnDeliveryStatus: string := "CASH ON DELIVERY"

  /** Sum of the `totalAmt` of a list of orders. */
  function TotalOf(orders: seq<Order>): real
  {
    if orders == [] then 0.0 else orders[0].totalAmt + TotalOf(orders[1..])
  }

  /** Sum of quantity times undiscounted price over the cart lines. */
  function CartTotal(lines: seq<CartLine>): int
  {
    if lines == [] then 0 else lines[0].quantity * lines[0].product.price + CartTotal(lines[1..])
  }

  /** The order numbers of `orders` are those built from the ids first, first + 1, ... */
  ghost predicate NumberedFrom(orders: seq<Order>, first: nat)
  {
    forall i :: 0 <= i < |orders| ==> orders[i].orderId == OrderIdText(first + i)
  }

  /** Orders numbered from consecutive fresh ids carry pairwise distinct order numbers. */
  lemma DistinctOrderNumbers(orders: seq<Order>, first: nat)
    requires NumberedFrom(orders, first) && first + |orders| <= Pow16(Width)
    ensures forall i, j :: 0 <= i < j < |orders| ==> orders[i].orderId != orders[j].orderId
  {
    forall i, j | 0 <= i < j < |orders|
      ensures orders[i].orderId != orders[j].orderId
    {
      OrderIdsDistinct(first + i, first + j);
    }
  }

  // ---------------------------------------------------------------------------
  // Cash on delivery: the payload mapping
  // ---------------------------------------------------------------------------

  /** The order built for one cart line; `objectId` is the fresh id for its order number. */
  function CashOnDeliveryOrder(userId: UserId, line: CartLine, addressId: AddressId, objectId: nat): Order
  {
    var amount := (line.quantity * line.product.price) as real;
    Order(userId, OrderIdText(objectId), line.product.id,
          ProductDetails(line.product.name, line.product.image, line.quantity),
          "", CashOnDeliveryStatus, addressId, amount, amount)
  }

  /**
   * The cash-on-delivery payload: exactly one order per cart line, in the
   * same order, each carrying its line's product and quantity, no payment
   * id, the cash-on-delivery status, the request's address, an order number
   * starting with `ORD-`, and both amounts equal to quantity times price.
   */
  function CashOnDeliveryPayload(userId: UserId, lines: seq<CartLine>, addressId: AddressId, firstObjectId: nat): (r: seq<Order>)
    ensures |r| == |lines|
    ensures NumberedFrom(r, firstObjectId)
    ensures forall i :: 0 <= i < |r| ==>
      && r[i].userId == userId
      && r[i].orderId[..|OrderPrefix|] == OrderPrefix
      && r[i].productId == lines[i].product.id
      && r[i].productDetails == ProductDetails(lines[i].product.name, lines[i].product.image, lines[i].quantity)
      && r[i].paymentId == ""
      && r[i].paymentStatus == CashOnDeliveryStatus
      && r[i].deliveryAddress == addressId
      && r[i].subTotalAmt == r[i].totalAmt == (lines[i].quantity * lines[i].product.price) as real
  {
    seq(|lines|, i requires 0 <= i < |lines| => CashOnDeliveryOrder(userId, lines[i], addressId, firstObjectId + i))
  }

  /** The cash-on-delivery orders together charge exactly the cart's undiscounted total. */
  lemma {:induction false} CashOnDeliveryChargesCartTotal(userId: UserId, lines: seq<CartLine>, addressId: AddressId, first: nat)
    ensures TotalOf(CashOnDeliveryPayload(userId, lines, addressId, first)) == CartTotal(lines) as real
  {
    if lines != [] {
      var r := CashOnDeliveryPayload(userId, lines, addressId, first);
      var rest := CashOnDeliveryPayload(userId, lines[1..], addressId, first + 1);
      assert r[1..] == rest;
      CashOnDeliveryChargesCartTotal(userId, lines[1..], addressId, first + 1);
    }
  }

  // ---------------------------------------------------------------------------
  // Card payment: the checkout-session request
  // ---------------------------------------------------------------------------

  datatype ProductData = ProductData(name: string, images: seq<string>, metadataProductId: ProductId)
  datatype PriceData = PriceData(currency: string, productData: ProductData, unitAmount: int)
  datatype AdjustableQuantity = AdjustableQuantity(enabled: bool, minimum: int)

  /** One line-item descriptor of a checkout-session request; `unitAmount` is in minor units. */
  datatype CheckoutLineItem = CheckoutLineItem(priceData: PriceData, adjustableQuantity: AdjustableQuantity, quantity: int)

  /** The user document looked up for the customer e-mail. */
  datatype User = User(email: string)

  /** The checkout-session request handed to the payment processor. */
  datatype SessionParams = SessionParams(
    submitType: string,
    mode: string,
    paymentMethodTypes: seq<string>,
    customerEmail: string,
    metadataUserId: UserId,
    metadataAddressId: AddressId,
    lineItems: seq<CheckoutLineItem>,
    successUrl: string,
    cancelUrl: string)

  const Currency: string := "inr"

  /** Minor units (paise) per unit of currency. */
  const MinorUnits: int := 100

  /** The descriptor for one cart line. */
  function LineItemFor(line: CartLine): CheckoutLineItem
  {
    var p := line.product;
    CheckoutLineItem(
      PriceData(Currency, ProductData(p.name, p.image, p.id), PriceWithDiscount(p.price, p.discount) * MinorUnits),
      AdjustableQuantity(true, 1),
      line.quantity)
  }

  /**
   * The line items of the session request: one per cart line, in order, with
   * the discounted unit price in minor units, the line's quantity, the
   * customer allowed to adjust the quantity down to 1, and the product id
   * kept in the product metadata.
   */
  function CheckoutLineItems(lines: seq<CartLine>): (r: seq<CheckoutLineItem>)
    ensures |r| == |lines|
    ensures forall i :: 0 <= i < |r| ==>
      && r[i].priceData.unitAmount == PriceWithDiscount(lines[i].product.price, lines[i].product.discount) * 100
      && r[i].priceData.currency == "inr"
      && r[i].priceData.productData == ProductData(lines[i].product.name, lines[i].product.image, lines[i].product.id)
      && r[i].quantity == lines[i].quantity
      && r[i].adjustableQuantity.enabled
      && r[i].adjustableQuantity.minimum == 1
  {
    seq(|lines|, i requires 0 <= i < |lines| => LineItemFor(lines[i]))
  }

  /** Every unit amount charged is a non-negative whole number of minor units no higher than the list price. */
  lemma CheckoutAmountsInRange(lines: seq<CartLine>, i: nat)
    requires i < |lines|
    requires lines[i].product.price >= 0 && 0 <= DiscountPercent(lines[i].product.discount) <= 100
    ensures 0 <= CheckoutLineItems(lines)[i].priceData.unitAmount <= lines[i].product.price * 100
  {
  }

  /**
   * The request built by the card-payment handler. An unknown user fails
   * (reading the e-mail of a missing user document throws); otherwise the
   * request carries the user's e-mail, the user and address as metadata, the
   * line items of the cart, and the redirect targets under `frontendUrl`.
   */
  function PaymentSessionParams(userId: UserId, user: Option<User>, addressId: AddressId, lines: seq<CartLine>, frontendUrl: string): (r: Result<SessionParams>)
    ensures r.Failure? <==> user.None?
    ensures r.Success? ==>
      && r.value.customerEmail == user.value.email
      && r.value.metadataUserId == userId
      && r.value.metadataAddressId == addressId
      && r.value.lineItems == CheckoutLineItems(lines)
      && r.value.paymentMethodTypes == ["card"]
      && r.value.successUrl == frontendUrl + "/success"
      && r.value.cancelUrl == frontendUrl + "/cancel"
  {
    match user
    case None => Failure("user not found")
    case Some(u) =>
      Success(SessionParams("pay", "payment", ["card"], u.email, userId, addressId,
                            CheckoutLineItems(lines), frontendUrl + "/success", frontendUrl + "/cancel"))
  }

  // ---------------------------------------------------------------------------
  // Webhook: orders from a completed checkout session
  // ---------------------------------------------------------------------------

  /** A product as the payment processor returns it when retrieved. */
  datatype ProcessorProduct = ProcessorProduct(name: string, images: seq<string>, metadataProductId: ProductId)

  /** A line item of a completed session, with its product already retrieved; `amountTotal` is in minor units. */
  datatype SessionLineItem = SessionLineItem(product: ProcessorProduct, quantity: int, amountTotal: int)

  /** The session object of a checkout event. */
  datatype CheckoutSession = CheckoutSession(
    id: string,
    metadataUserId: UserId,
    metadataAddressId: AddressId,
    paymentIntent: string,
    paymentStatus: string)

  datatype Event = Event(eventType: string, session: CheckoutSession)

  const CheckoutSessionCompleted: string := "checkout.session.completed"

  /** The listed line items, or none when the listing or its data is absent. */
  function ListedItems(lineItems: Option<seq<SessionLineItem>>): seq<SessionLineItem>
  {
    match lineItems
    case None => []
    case Some(items) => items
  }

  /** The order built for one paid line item. */
  function WebhookOrder(item: SessionLineItem, userId: UserId, addressId: AddressId, paymentId: string, paymentStatus: string, objectId: nat): Order
  {
    var amount := item.amountTotal as real / MinorUnits as real;
    Order(userId, OrderIdText(objectId), item.product.metadataProductId,
          ProductDetails(item.product.name, item.product.images, item.quantity),
          paymentId, paymentStatus, addressId, amount, amount)
  }

  /**
   * The orders for a completed session: one per listed line item, in order
   * (none when the listing is absent or empty), each with the session's
   * user, address, payment intent and payment status, the product id from
   * the product's metadata, and both amounts equal to the line's total in
   * minor units divided by 100.
   */
  function WebhookPayload(lineItems: Option<seq<SessionLineItem>>, userId: UserId, addressId: AddressId, paymentId: string, paymentStatus: string, firstObjectId: nat): (r: seq<Order>)
    ensures lineItems.None? || lineItems == Some([]) ==> r == []
    ensures lineItems.Some? ==> |r| == |lineItems.value|
    ensures NumberedFrom(r, firstObjectId)
    ensures forall i :: 0 <= i < |r| ==>
      var item := ListedItems(lineItems)[i];
      && r[i].userId == userId
      && r[i].productId == item.product.metadataProductId
      && r[i].productDetails == ProductDetails(item.product.name, item.product.images, item.quantity)
      && r[i].paymentId == paymentId
      && r[i].paymentStatus == paymentStatus
      && r[i].deliveryAddress == addressId
      && r[i].subTotalAmt == r[i].totalAmt
      && r[i].totalAmt * 100.0 == item.amountTotal as real
  {
    var items := ListedItems(lineItems);
    seq(|items|, i requires 0 <= i < |items| => WebhookOrder(items[i], userId, addressId, paymentId, paymentStatus, firstObjectId + i))
  }

  /**
   * Builds the order list for a completed session one line item at a time,
   * as the handler's loop does; `firstObjectId` is the next fresh id.
   */
  method GetOrderProductItems(lineItems: Option<seq<SessionLineItem>>, userId: UserId, addressId: AddressId, paymentId: string, paymentStatus: string, firstObjectId: nat)
    returns (productList: seq<Order>)
    ensures lineItems.None? || lineItems == Some([]) ==> productList == []
    ensures productList == WebhookPayload(lineItems, userId, addressId, paymentId, paymentStatus, firstObjectId)
  {
    productList := [];
    if lineItems.Some? && |lineItems.value| > 0 {
      var items := lineItems.value;
      var i := 0;
      while i < |items|
        invariant 0 <= i <= |items|
        invariant |productList| == i
        invariant forall k :: 0 <= k < i ==>
          productList[k] == WebhookOrder(items[k], userId, addressId, paymentId, paymentStatus, firstObjectId + k)
      {
        var payload := WebhookOrder(items[i], userId, addressId, paymentId, paymentStatus, firstObjectId + i);
        productList := productList + [payload];
        i := i + 1;
      }
    }
  }

  // ---------------------------------------------------------------------------
  // Card checkout end to end
  // ---------------------------------------------------------------------------

  /**
   * What the payment processor reports for a line item it was asked to
   * charge, when the customer keeps the quantity: the product created from
   * the descriptor's product data, the same quantity, and unit amount times
   * quantity as the total.
   */
  function ChargedAs(li: CheckoutLineItem): SessionLineItem
  {
    var pd := li.priceData.productData;
    SessionLineItem(ProcessorProduct(pd.name, pd.images, pd.metadataProductId), li.quantity, li.priceData.unitAmount * li.quantity)
  }

  /** The whole listing of a session whose every requested line was charged as requested. */
  function AllChargedAs(lis: seq<CheckoutLineItem>): seq<SessionLineItem>
  {
    seq(|lis|, i requires 0 <= i < |lis| => ChargedAs(lis[i]))
  }

  /**
   * IF the processor's listing of the completed session holds every
   * requested line, each at the requested quantity (`AllChargedAs`), then
   * the webhook produces one order per cart line, for that line's product
   * and quantity, owned by the requesting user and delivered to the
   * requested address, charging the discounted price times the quantity.
   * The handler reads only the first page of the listing, so a session with
   * more lines than one page holds falls outside this premise.
   */
  lemma CardCheckoutRoundTrip(userId: UserId, user: User, addressId: AddressId, lines: seq<CartLine>, frontendUrl: string,
                              sessionId: string, paymentIntent: string, paymentStatus: string, first: nat)
    ensures
      var params := PaymentSessionParams(userId, Some(user), addressId, lines, frontendUrl).value;
      var orders := WebhookPayload(Some(AllChargedAs(params.lineItems)), params.metadataUserId, params.metadataAddressId,
                                   paymentIntent, paymentStatus, first);
      && |orders| == |lines|
      && forall i :: 0 <= i < |lines| ==>
        && orders[i].userId == userId
        && orders[i].deliveryAddress == addressId
        && orders[i].productId == lines[i].product.id
        && orders[i].productDetails.quantity == lines[i].quantity
        && orders[i].totalAmt == (PriceWithDiscount(lines[i].product.price, lines[i].product.discount) * lines[i].quantity) as real
  {
  }

  // ---------------------------------------------------------------------------
  // The cart store
  // ---------------------------------------------------------------------------

  /** The cart documents left after deleting every document of `userId`. */
  function WithoutUser(cart: seq<CartProduct>, userId: UserId): (r: seq<CartProduct>)
    ensures forall c :: c in r <==> c in cart && c.userId != userId
  {
    if cart == [] then []
    else if cart[0].userId == userId then WithoutUser(cart[1..], userId)
    else [cart[0]] + WithoutUser(cart[1..], userId)
  }

  /** The cart documents of one user, in store order. */
  function CartOf(cart: seq<CartProduct>, userId: UserId): (r: seq<CartProduct>)
    ensures forall c :: c in r <==> c in cart && c.userId == userId
  {
    if cart == [] then []
    else if cart[0].userId == userId then [cart[0]] + CartOf(cart[1..], userId)
    else CartOf(cart[1..], userId)
  }

  /** Deleting one user's cart documents leaves that user with none. */
  lemma {:induction false} DeleteEmptiesUserCart(cart: seq<CartProduct>, userId: UserId)
    ensures CartOf(WithoutUser(cart, userId), userId) == []
  {
    if cart != [] {
      DeleteEmptiesUserCart(cart[1..], userId);
    }
  }

  /** Deleting one user's cart documents leaves every other user's documents, in the same order. */
  lemma {:induction false} DeleteKeepsOtherCarts(cart: seq<CartProduct>, userId: UserId, other: UserId)
    requires other != userId
    ensures CartOf(WithoutUser(cart, userId), other) == CartOf(cart, other)
  {
    if cart != [] {
      DeleteKeepsOtherCarts(cart[1..], userId, other);
      if cart[0].userId != userId {
        assert WithoutUser(cart, userId) == [cart[0]] + WithoutUser(cart[1..], userId);
        assert ([cart[0]] + WithoutUser(cart[1..], userId))[1..] == WithoutUser(cart[1..], userId);
      }
    }
  }

  /** The users' `shopping_cart` lists after emptying the list of `userId`, if that user exists. */
  function ClearShoppingCart(carts: map<UserId, seq<string>>, userId: UserId): (r: map<UserId, seq<string>>)
    ensures r.Keys == carts.Keys
    ensures userId in carts ==> r[userId] == []
    ensures forall v :: v in carts && v != userId ==> r[v] == carts[v]
  {
    if userId in carts then carts[userId := []] else carts
  }

  /** The ids first, first + 1, ..., first + n - 1. */
  ghost function IdsFrom(first: nat, n: nat): (ids: seq<nat>)
  {
    seq(n, i requires 0 <= i < n => first + i)
  }

  /**
   * Each stored order number is built from the id at the same position in
   * `ids`; the ids increase strictly and all lie below the next fresh id.
   */
  ghost predicate IssuedInOrder(orders: seq<Order>, ids: seq<nat>, next: nat)
  {
    && |ids| == |orders|
    && (forall i :: 0 <= i < |orders| ==> orders[i].orderId == OrderIdText(ids[i]))
    && (forall i, j :: 0 <= i < j < |ids| ==> ids[i] < ids[j])
    && (forall i :: 0 <= i < |ids| ==> ids[i] < next)
  }

  /** Appending orders numbered from the next fresh ids keeps the numbering in issue order. */
  lemma AppendKeepsIssuedInOrder(orders: seq<Order>, ids: seq<nat>, next: nat, payload: seq<Order>)
    requires IssuedInOrder(orders, ids, next) && NumberedFrom(payload, next)
    ensures IssuedInOrder(orders + payload, ids + IdsFrom(next, |payload|), next + |payload|)
  {
    var orders', ids' := orders + payload, ids + IdsFrom(next, |payload|);
    forall i | 0 <= i < |orders'|
      ensures orders'[i].orderId == OrderIdText(ids'[i]) && ids'[i] < next + |payload|
    {
      if i >= |ids| {
        assert orders'[i] == payload[i - |ids|] && ids'[i] == next + (i - |ids|);
      }
    }
    forall i, j | 0 <= i < j < |ids'|
      ensures ids'[i] < ids'[j]
    {
      if j >= |ids| {
        assert ids'[j] == next + (j - |ids|);
        if i >= |ids| {
          assert ids'[i] == next + (i - |ids|);
        }
      }
    }
  }

  /** The order store, the cart store and the users' cart lists, with the fresh-id generator. */
  class Store {
    var orders: seq<Order>
    var cartProducts: seq<CartProduct>
    var shoppingCarts: map<UserId, seq<string>>
    /** The next fresh document id. */
    var nextObjectId: nat
    /** The document id each stored order number was built from. */
    ghost var orderObjectIds: seq<nat>

    /** Every stored order number comes from a distinct id issued earlier, in increasing order. */
    ghost predicate Valid()
      reads this
    {
      IssuedInOrder(orders, orderObjectIds, nextObjectId)
    }

    constructor (cartProducts: seq<CartProduct>, shoppingCarts: map<UserId, seq<string>>)
      ensures Valid()
      ensures orders == [] && nextObjectId == 0
      ensures this.cartProducts == cartProducts && this.shoppingCarts == shoppingCarts
    {
      orders := [];
      this.cartProducts := cartProducts;
      this.shoppingCarts := shoppingCarts;
      nextObjectId := 0;
      orderObjectIds := [];
    }

    /** While fewer ids have been issued than 24 hex digits can print, no two stored orders share an order number. */
    lemma OrderNumbersUnique()
      requires Valid() && nextObjectId <= Pow16(Width)
      ensures forall i, j :: 0 <= i < j < |orders| ==> orders[i].orderId != orders[j].orderId
    {
      forall i, j | 0 <= i < j < |orders|
        ensures orders[i].orderId != orders[j].orderId
      {
        OrderIdsDistinct(orderObjectIds[i], orderObjectIds[j]);
      }
    }

    /** Appends orders numbered from the next fresh ids and advances the generator. */
    method InsertMany(payload: seq<Order>)
      requires Valid() && NumberedFrom(payload, nextObjectId)
      modifies this
      ensures Valid()
      ensures orders == old(orders) + payload
      ensures nextObjectId == old(nextObjectId) + |payload|
      ensures cartProducts == old(cartProducts) && shoppingCarts == old(shoppingCarts)
    {
      AppendKeepsIssuedInOrder(orders, orderObjectIds, nextObjectId, payload);
      orderObjectIds := orderObjectIds + IdsFrom(nextObjectId, |payload|);
      orders := orders + payload;
      nextObjectId := nextObjectId + |payload|;
    }

    /** Deletes the user's cart documents and empties the user's `shopping_cart`. */
    method ClearCart(userId: UserId)
      modifies this
      ensures cartProducts == WithoutUser(old(cartProducts), userId)
      ensures shoppingCarts == ClearShoppingCart(old(shoppingCarts), userId)
      ensures orders == old(orders) && nextObjectId == old(nextObjectId) && orderObjectIds == old(orderObjectIds)
    {
      cartProducts := WithoutUser(cartProducts, userId);
      shoppingCarts := ClearShoppingCart(shoppingCarts, userId);
    }

    /**
     * Cash-on-delivery checkout. One fresh id is drawn per cart line while the
     * payload is built. If the insert succeeds, the payload is stored and the
     * requesting user's cart is cleared, and the orders are returned; if it
     * fails, nothing is stored and no cart changes.
     */
    method CashOnDelivery(userId: UserId, listItems: seq<CartLine>, addressId: AddressId, insertOk: bool)
      returns (r: Result<seq<Order>>)
      requires Valid()
      modifies this
      ensures Valid()
      ensures nextObjectId == old(nextObjectId) + |listItems|
      ensures insertOk ==>
        && r == Success(CashOnDeliveryPayload(userId, listItems, addressId, old(nextObjectId)))
        && orders == old(orders) + r.value
        && cartProducts == WithoutUser(old(cartProducts), userId)
        && shoppingCarts == ClearShoppingCart(old(shoppingCarts), userId)
      ensures !insertOk ==>
        && r.Failure?
        && orders == old(orders)
        && cartProducts == old(cartProducts)
        && shoppingCarts == old(shoppingCarts)
    {
      var payload := CashOnDeliveryPayload(userId, listItems, addressId, nextObjectId);
      if !insertOk {
        nextObjectId := nextObjectId + |listItems|;
        return Failure("insert failed");
      }
      InsertMany(payload);
      ClearCart(userId);
      r := Success(payload);
    }

    /**
     * The payment-processor webhook. A completed checkout session stores one
     * order per listed line item and, only when at least one order was
     * stored, clears the cart of the session's user. Any other event type
     * changes nothing. Every event is acknowledged.
     */
    method WebhookStripe(event: Event, lineItems: Option<seq<SessionLineItem>>) returns (received: bool)
      requires Valid()
      modifies this
      ensures Valid()
      ensures received
      ensures event.eventType == CheckoutSessionCompleted ==>
        var s := event.session;
        var payload := WebhookPayload(lineItems, s.metadataUserId, s.metadataAddressId, s.paymentIntent, s.paymentStatus, old(nextObjectId));
        && orders == old(orders) + payload
        && nextObjectId == old(nextObjectId) + |payload|
        && (|payload| > 0 ==> cartProducts == WithoutUser(old(cartProducts), s.metadataUserId)
                              && shoppingCarts == ClearShoppingCart(old(shoppingCarts), s.metadataUserId))
        && (|payload| == 0 ==> cartProducts == old(cartProducts) && shoppingCarts == old(shoppingCarts))
      ensures event.eventType != CheckoutSessionCompleted ==>
        && orders == old(orders)
        && nextObjectId == old(nextObjectId)
        && cartProducts == old(cartProducts)
        && shoppingCarts == old(shoppingCarts)
    {
      if event.eventType == CheckoutSessionCompleted {
        var session := event.session;
        var userId := session.metadataUserId;
        var orderProduct := GetOrderProductItems(lineItems, userId, session.metadataAddressId,
                                                 session.paymentIntent, session.paymentStatus, nextObjectId);
        InsertMany(orderProduct);
        var order := orderProduct;
        if |order| > 0 {
          ClearCart(userId);
        }
      }
      received := true;
    }
  }
}
