/**
 * The add-to-cart button of a product card. It shows an Add button when the
 * product is not in the cart and decrease / quantity / increase controls when
 * it is. Each handler marks its own operation as loading, sends its request
 * to the cart service, and clears the mark whatever the reply. Requests are
 * recorded in `sent`, each with the loading mark in force when it was sent;
 * replies are parameters.
 */
module AddToCartButton {
  import opened Wrappers

  /** The operation a control performs; the loading mark names one of these. */
  datatype Op = Add | Increase | Decrease

  /** A cart entry as held by the client store: its id, its product's id and the quantity. */
  datatype CartItem = CartItem(id: string, productId: string, quantity: int)

  /** A request to the cart service. */
  datatype Request =
    | AddToCart(productId: string)
    | UpdateQuantity(cartItemId: string, quantity: int)
    | DeleteItem(cartItemId: string)
    | FetchCart

  /** A sent request and the loading mark in force when it was sent. */
  datatype Sent = Sent(request: Request, loading: Option<Op>)

  /** The reply to the add request: a response with its success flag, or a thrown error. */
  datatype Reply = Replied(success: bool) | Threw

  /** What is on screen: the Add button, or the quantity controls; each button with its disabled flag. */
  datatype View =
    | AddButton(addDisabled: bool)
    | QuantityControls(decreaseDisabled: bool, quantity: int, increaseDisabled: bool)

  /** Position of the first cart entry for `productId`, or `|cart|` when there is none. */
  function FirstIndexOf(cart: seq<CartItem>, productId: string): (k: nat)
    ensures k <= |cart|
    ensures k < |cart| ==> cart[k].productId == productId
    ensures forall j :: 0 <= j < k ==> cart[j].productId != productId
  {
    if cart == [] then 0
    else if cart[0].productId == productId then 0
    else 1 + FirstIndexOf(cart[1..], productId)
  }

  /**
   * The cart entry shown by the button: an entry for the product with no
   * entry for it before it (the first one), or nothing exactly when no entry
   * is for the product.
   */
  function FindCartItem(cart: seq<CartItem>, productId: string): (r: Option<CartItem>)
    ensures r.None? <==> forall i :: 0 <= i < |cart| ==> cart[i].productId != productId
    ensures r.Some? ==> r.value in cart && r.value.productId == productId
    ensures r.Some? ==> exists k :: 0 <= k < |cart| && cart[k] == r.value && forall j :: 0 <= j < k ==> cart[j].productId != productId
  {
    var k := FirstIndexOf(cart, productId);
    if k < |cart| then Some(cart[k]) else None
  }

  /** The quantity asked for by Increase: the current quantity (0 if there is no entry) plus one. */
  function IncreasedQuantity(details: Option<CartItem>): (q: int)
    ensures details.None? ==> q == 1
    ensures details.Some? ==> q - 1 == details.value.quantity
  {
    (match details case None => 0 case Some(item) => item.quantity) + 1
  }

  /**
   * The request sent by Decrease: delete the entry when one unit is left,
   * otherwise update it to one less; never an update to zero.
   */
  function DecreaseRequest(item: CartItem): (r: Request)
    ensures r.DeleteItem? || r.UpdateQuantity?
    ensures r.cartItemId == item.id
    ensures r.DeleteItem? <==> item.quantity == 1
    ensures r.UpdateQuantity? ==> r.quantity == item.quantity - 1 && r.quantity != 0
  {
    var newQty := item.quantity - 1;
    if newQty == 0 then DeleteItem(item.id) else UpdateQuantity(item.id, newQty)
  }

  /** Increase followed by Decrease asks for the quantity the entry had. */
  lemma IncreaseThenDecrease(item: CartItem)
    requires item.quantity >= 1
    ensures DecreaseRequest(item.(quantity := IncreasedQuantity(Some(item)))) == UpdateQuantity(item.id, item.quantity)
  {
  }

  /** Whether the control for `op` is on screen: Add when there is no entry, the others when there is one. */
  predicate Shown(details: Option<CartItem>, op: Op)
  {
    (op == Add) == details.None?
  }

  /** The control for `op` in a view: absent, or present with its disabled flag. */
  function ButtonState(v: View, op: Op): Option<bool>
  {
    match v
    case AddButton(d) => if op == Add then Some(d) else None
    case QuantityControls(dec, _, inc) =>
      if op == Decrease then Some(dec) else if op == Increase then Some(inc) else None
  }

  /**
   * The rendered view: the quantity controls, showing the entry's quantity,
   * exactly when the product has an entry; each control present exactly when
   * shown, and disabled exactly when the loading mark is its own operation.
   */
  function Render(details: Option<CartItem>, loadingType: Option<Op>): (v: View)
    ensures v.QuantityControls? <==> details.Some?
    ensures v.QuantityControls? ==> v.quantity == details.value.quantity
    ensures forall op :: ButtonState(v, op).Some? <==> Shown(details, op)
    ensures forall op :: ButtonState(v, op) == Some(true) <==> Shown(details, op) && loadingType == Some(op)
  {
    match details
    case None => AddButton(loadingType == Some(Add))
    case Some(item) => QuantityControls(loadingType == Some(Decrease), item.quantity, loadingType == Some(Increase))
  }

  /** At most one control is ever disabled. */
  lemma AtMostOneDisabled(details: Option<CartItem>, loadingType: Option<Op>, a: Op, b: Op)
    requires ButtonState(Render(details, loadingType), a) == Some(true)
    requires ButtonState(Render(details, loadingType), b) == Some(true)
    ensures a == b
  {
  }

  /** One mounted button for the product `productId`. */
  class Button {
    /** The product shown (`data._id`). */
    const productId: string
    /** Whether a cart refetch callback is provided. */
    const canRefetch: bool
    /** The cart as held by the client store. */
    var cart: seq<CartItem>
    /** The operation whose request is in flight, if any. */
    var loadingType: Option<Op>
    /** The cart entry for the product, as found by the effect. */
    var cartItemDetails: Option<CartItem>
    /** Every request sent so far, oldest first. */
    var sent: seq<Sent>

    /**
     * Between handler runs: the entry shown is the one found in the cart, no
     * operation is loading, every request went out while its operation was
     * loading, and no decrease ever asked for quantity zero.
     */
    ghost predicate Valid()
      reads this
    {
      && cartItemDetails == FindCartItem(cart, productId)
      && loadingType.None?
      && (forall i :: 0 <= i < |sent| ==> sent[i].loading.Some?)
      && (forall i :: 0 <= i < |sent| && sent[i].loading == Some(Decrease) && sent[i].request.UpdateQuantity? ==>
            sent[i].request.quantity != 0)
    }

    /** What the button shows now. */
    function CurrentView(): View
      reads this
    {
      Render(cartItemDetails, loadingType)
    }

    /** Between handler runs no control is disabled, and the controls shown follow the cart. */
    lemma NothingDisabledBetweenRuns(op: Op)
      requires Valid()
      ensures ButtonState(CurrentView(), op) != Some(true)
      ensures ButtonState(CurrentView(), op).Some? <==> (op == Add) == (forall i :: 0 <= i < |cart| ==> cart[i].productId != productId)
    {
    }

    /** Mounting: no loading mark, and the effect has looked the product up in the cart. */
    constructor (productId: string, cart: seq<CartItem>, canRefetch: bool)
      ensures Valid()
      ensures this.productId == productId && this.cart == cart && this.canRefetch == canRefetch
      ensures cartItemDetails == FindCartItem(cart, productId)
      ensures loadingType == None && sent == []
    {
      this.productId := productId;
      this.cart := cart;
      this.canRefetch := canRefetch;
      loadingType := None;
      cartItemDetails := FindCartItem(cart, productId);
      sent := [];
    }

    /** The effect run when the store's cart changes: look the product up again. */
    method CartChanged(newCart: seq<CartItem>)
      requires Valid()
      modifies this
      ensures Valid()
      ensures cart == newCart && cartItemDetails == FindCartItem(newCart, productId)
      ensures loadingType == old(loadingType) && sent == old(sent)
    {
      cart := newCart;
      cartItemDetails := FindCartItem(cart, productId);
    }

    /**
     * Add: sends an add request for this product while Add is loading, then a
     * cart refetch only if the reply reports success (and a refetch callback
     * exists), and finally clears the loading mark whatever the reply.
     */
    method HandleAddToCart(reply: Reply)
      requires Valid()
      modifies this
      ensures Valid()
      ensures sent == old(sent) + [Sent(AddToCart(productId), Some(Add))]
                     + (if reply == Replied(true) && canRefetch then [Sent(FetchCart, Some(Add))] else [])
      ensures loadingType == None
      ensures cart == old(cart) && cartItemDetails == old(cartItemDetails)
    {
      loadingType := Some(Add);
      sent := sent + [Sent(AddToCart(productId), loadingType)];
      if reply.Replied? && reply.success && canRefetch {
        sent := sent + [Sent(FetchCart, loadingType)];
      }
      loadingType := None;
    }

    /**
     * Increase: while Increase is loading, asks for the entry's quantity plus
     * one on the same entry. With no entry, reading its id throws before any
     * request; the loading mark is cleared either way.
     */
    method HandleIncreaseQty()
      requires Valid()
      modifies this
      ensures Valid()
      ensures cartItemDetails.Some? ==>
        sent == old(sent) + [Sent(UpdateQuantity(cartItemDetails.value.id, cartItemDetails.value.quantity + 1), Some(Increase))]
      ensures cartItemDetails.None? ==> sent == old(sent)
      ensures loadingType == None
      ensures cart == old(cart) && cartItemDetails == old(cartItemDetails)
    {
      loadingType := Some(Increase);
      var newQty := IncreasedQuantity(cartItemDetails);
      if cartItemDetails.Some? {
        sent := sent + [Sent(UpdateQuantity(cartItemDetails.value.id, newQty), loadingType)];
      }
      loadingType := None;
    }

    /**
     * Decrease: while Decrease is loading, deletes the entry when its quantity
     * is 1 and otherwise asks for one less. With no entry, reading its
     * quantity throws before any request; the loading mark is cleared either way.
     */
    method HandleDecreaseQty()
      requires Valid()
      modifies this
      ensures Valid()
      ensures cartItemDetails.Some? ==>
        sent == old(sent) + [Sent(DecreaseRequest(cartItemDetails.value), Some(Decrease))]
      ensures cartItemDetails.None? ==> sent == old(sent)
      ensures loadingType == None
      ensures cart == old(cart) && cartItemDetails == old(cartItemDetails)
    {
      loadingType := Some(Decrease);
      if cartItemDetails.Some? {
        var request := DecreaseRequest(cartItemDetails.value);
        sent := sent + [Sent(request, loadingType)];
      }
      loadingType := None;
    }
  }
}
