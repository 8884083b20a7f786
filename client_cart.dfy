/** The cart page of client/src/components/cart.js: the totals it shows, the
    checks made before the order preview opens, the order payload it posts,
    and how its handlers change the page state. Each handler's network call
    is the request it returns, and whether that call succeeds is the
    parameter `ok`. */
module ClientCart {
  import opened Domain
  import opened Seqs
  import opened Text
  import opened CartModel
  import opened OrderController

  /** A cart item as held by the page: the populated product's id and price
      (the price is absent when the product is), the quantity and the note. */
  datatype ClientItem = ClientItem(productId: Id, price: Option<int>, quantity: Option<int>, note: string)

  /** The checkout form fields. */
  datatype CheckoutForm = CheckoutForm(
    customerName: string,
    customerPhone: string,
    notes: string,
    fulfillment: string,
    pickupType: string,
    region: string,
    deliveryAddress: string)

  datatype PayloadItem = PayloadItem(productId: Id, quantity: Option<int>)

  /** The body posted to the orders endpoint. */
  datatype Payload = Payload(
    customerName: string,
    customerPhone: string,
    deliveryAddress: string,
    items: seq<PayloadItem>,
    notes: string,
    fulfillment: string,
    pickupType: Option<string>,
    region: Option<string>,
    subtotal: int,
    tax: int,
    deliveryFee: int,
    total: int)

  /** The requests the page sends. */
  datatype Request =
    | PutQuantity(productId: Id, quantity: int)
    | DeleteItem(productId: Id)
    | PostOrder(payload: Payload)
    | DeleteCart

  datatype Snack = Snack(severity: string, message: string)

  const Tax: int := 0
  const DeliveryFee: int := 0

  const NeedCustomer: string := "Please enter customer name and phone before confirming."
  const BadPhone: string := "Please enter a valid phone number."
  const NeedRegion: string := "Please select a delivery region."
  const NeedAddress: string := "Please enter a delivery address."
  const EmptyCart: string := "Your cart is empty."
  const LoginToModify: string := "You must be logged in to modify the cart."
  const LoginToOrder: string := "You must be logged in to place an order."

  /** `!token` fails: a stored token is present and not empty. */
  predicate LoggedIn(token: Option<string>)
  {
    token.Some? && token.value != ""
  }

  /** `x || 0` on an optional number. */
  function OrZero(x: Option<int>): int
  {
    if x.Some? then x.value else 0
  }

  /** `cartItems.reduce((s, it) => s + (it.product?.price || 0) * (it.quantity || 0), 0)`. */
  function Subtotal(items: seq<ClientItem>): int
  {
    if items == [] then 0 else OrZero(items[0].price) * OrZero(items[0].quantity) + Subtotal(items[1..])
  }

  /** Tax and delivery fee are both zero, so the total is the subtotal. */
  function Total(items: seq<ClientItem>): (t: int)
    ensures t == Subtotal(items)
  {
    Subtotal(items) + Tax + DeliveryFee
  }

  /** The subtotal is additive over the items. */
  lemma {:induction false} SubtotalConcat(a: seq<ClientItem>, b: seq<ClientItem>)
    ensures Subtotal(a + b) == Subtotal(a) + Subtotal(b)
  {
    if a != [] {
      SubtotalConcat(a[1..], b);
      assert (a + b)[1..] == a[1..] + b;
    } else {
      assert a + b == b;
    }
  }

  /** A line of the server's cart response as the page stores it. */
  function ClientItemOf(l: PopLine): ClientItem
  {
    ClientItem(if l.product.Some? then l.product.value.id else "",
               if l.product.Some? then Some(l.product.value.info.price) else None,
               Some(l.quantity), l.note)
  }

  function ClientItems(lines: seq<PopLine>): (r: seq<ClientItem>)
    ensures |r| == |lines|
    ensures forall i :: 0 <= i < |lines| ==> r[i] == ClientItemOf(lines[i])
  {
    seq(|lines|, i requires 0 <= i < |lines| => ClientItemOf(lines[i]))
  }

  /** The subtotal of populated lines is the server's total of the lines:
      price times quantity, a dangling line counting nothing on both sides. */
  lemma {:induction false} SubtotalOfPopulated(items: seq<CartLine>, products: map<Id, Product>)
    ensures Subtotal(ClientItems(Populate(items, products))) == LinesTotal(items, products)
  {
    if items != [] {
      SubtotalOfPopulated(items[1..], products);
      assert Populate(items, products)[1..] == Populate(items[1..], products);
      assert ClientItems(Populate(items, products))[1..] == ClientItems(Populate(items[1..], products));
    }
  }

  /** What the page shows as the total of the cart it fetched is the total the
      server puts on the order placed from that cart. */
  lemma ShownTotalIsOrderTotal(items: seq<CartLine>, products: map<Id, Product>)
    ensures Total(ClientItems(Populate(Resolving(items, products), products))) == LinesTotal(items, products)
  {
    SubtotalOfPopulated(Resolving(items, products), products);
    LinesTotalResolving(items, products);
  }

  /** The checks of `openOrderPreview`, in order: the message of the first
      one that fails, or none when the preview may open. The preview opens
      exactly when every check passes, and a failure reports the first check
      in the handler's order. */
  function PreviewError(f: CheckoutForm, items: seq<ClientItem>): (r: Option<string>)
    ensures r.None? <==>
      && !IsBlank(f.customerName) && !IsBlank(f.customerPhone)
      && |Digits(f.customerPhone)| >= 10
      && (f.fulfillment == "delivery" ==> f.region != "" && !IsBlank(f.deliveryAddress))
      && items != []
    ensures IsBlank(f.customerName) || IsBlank(f.customerPhone) ==> r == Some(NeedCustomer)
    ensures !IsBlank(f.customerName) && !IsBlank(f.customerPhone) && |Digits(f.customerPhone)| < 10 ==>
      r == Some(BadPhone)
    ensures (&& !IsBlank(f.customerName) && !IsBlank(f.customerPhone) && |Digits(f.customerPhone)| >= 10
             && f.fulfillment == "delivery" && f.region == "")
      ==> r == Some(NeedRegion)
    ensures (&& !IsBlank(f.customerName) && !IsBlank(f.customerPhone) && |Digits(f.customerPhone)| >= 10
             && f.fulfillment == "delivery" && f.region != "" && IsBlank(f.deliveryAddress))
      ==> r == Some(NeedAddress)
    ensures (&& !IsBlank(f.customerName) && !IsBlank(f.customerPhone) && |Digits(f.customerPhone)| >= 10
             && (f.fulfillment == "delivery" ==> f.region != "" && !IsBlank(f.deliveryAddress))
             && items == [])
      ==> r == Some(EmptyCart)
    ensures r == Some(EmptyCart) ==>
      !IsBlank(f.customerName) && |Digits(f.customerPhone)| >= 10 && items == []
    ensures f.fulfillment != "delivery" ==> r != Some(NeedRegion) && r != Some(NeedAddress)
  {
    if IsBlank(f.customerName) || IsBlank(f.customerPhone) then Some(NeedCustomer)
    else if |Digits(f.customerPhone)| < 10 then Some(BadPhone)
    else if f.fulfillment == "delivery" && f.region == "" then Some(NeedRegion)
    else if f.fulfillment == "delivery" && IsBlank(f.deliveryAddress) then Some(NeedAddress)
    else if items == [] then Some(EmptyCart)
    else None
  }

  /** A phone with ten digits is never blank, so the phone part of the first
      check only matters for phones the second check would reject anyway. */
  lemma PhoneCheckSubsumes(f: CheckoutForm, items: seq<ClientItem>)
    requires |Digits(f.customerPhone)| >= 10 && !IsBlank(f.customerName)
    ensures PreviewError(f, items) != Some(NeedCustomer)
  {
    DigitsNotBlank(f.customerPhone);
  }

  /** `items: cartItems.map(it => ({productId: it.product._id, quantity: it.quantity}))`. */
  function PayloadItems(items: seq<ClientItem>): (r: seq<PayloadItem>)
    ensures |r| == |items|
    ensures forall i :: 0 <= i < |items| ==> r[i] == PayloadItem(items[i].productId, items[i].quantity)
  {
    seq(|items|, i requires 0 <= i < |items| => PayloadItem(items[i].productId, items[i].quantity))
  }

  /** The payload of `confirmPlaceOrder`. */
  function MakePayload(f: CheckoutForm, items: seq<ClientItem>): Payload
  {
    Payload(Trim(f.customerName), Trim(f.customerPhone), Trim(f.deliveryAddress), PayloadItems(items),
            Trim(f.notes), f.fulfillment,
            if f.fulfillment == "pickup" then Some(f.pickupType) else None,
            if f.fulfillment == "delivery" then Some(f.region) else None,
            Subtotal(items), Tax, DeliveryFee, Total(items))
  }

  /** The pickup type is sent only for pickup and the region only for
      delivery; the amounts sent are the page's subtotal with no tax or fee;
      the text fields are sent trimmed; each item is sent as its product id
      and quantity. */
  lemma MakePayloadSpec(f: CheckoutForm, items: seq<ClientItem>)
    ensures var p := MakePayload(f, items);
      && (p.pickupType.Some? <==> f.fulfillment == "pickup")
      && (p.region.Some? <==> f.fulfillment == "delivery")
      && (p.pickupType.Some? ==> p.pickupType.value == f.pickupType)
      && (p.region.Some? ==> p.region.value == f.region)
      && p.total == p.subtotal == Subtotal(items) && p.tax == 0 && p.deliveryFee == 0
      && p.customerName == Trim(f.customerName) && p.customerPhone == Trim(f.customerPhone)
      && Trim(p.customerName) == p.customerName
      && |p.items| == |items|
      && forall i :: 0 <= i < |items| ==> p.items[i] == PayloadItem(items[i].productId, items[i].quantity)
  {
    TrimIdempotent(f.customerName);
  }

  /** `prev.map(it => it.product._id === productId ? {...it, quantity} : it)`. */
  function SetItemQuantity(items: seq<ClientItem>, productId: Id, q: int): (r: seq<ClientItem>)
    ensures |r| == |items|
    ensures forall i :: 0 <= i < |items| ==>
      if items[i].productId == productId then r[i] == items[i].(quantity := Some(q)) else r[i] == items[i]
  {
    seq(|items|, i requires 0 <= i < |items| =>
      if items[i].productId == productId then items[i].(quantity := Some(q)) else items[i])
  }

  /** `prev.filter(it => it.product._id !== productId)`. */
  function WithoutItem(items: seq<ClientItem>, productId: Id): seq<ClientItem>
  {
    Filter(items, (it: ClientItem) => it.productId != productId)
  }

  /** Removing drops exactly the product's items and keeps the rest in order. */
  lemma WithoutItemSpec(items: seq<ClientItem>, productId: Id, it: ClientItem)
    ensures it in WithoutItem(items, productId) <==> it in items && it.productId != productId
    ensures Subsequence(WithoutItem(items, productId), items)
  {
    FilterMembership(items, (it: ClientItem) => it.productId != productId, it);
    FilterSubsequence(items, (it: ClientItem) => it.productId != productId);
  }

  /** Setting a quantity changes the subtotal only through the product's own
      items: with a single item for the product, by price times the change. */
  lemma {:induction false} SetItemQuantitySubtotal(items: seq<ClientItem>, productId: Id, q: int, k: nat)
    requires k < |items| && items[k].productId == productId
    requires forall i :: 0 <= i < |items| && i != k ==> items[i].productId != productId
    ensures Subtotal(SetItemQuantity(items, productId, q)) ==
      Subtotal(items) + OrZero(items[k].price) * (q - OrZero(items[k].quantity))
  {
    var r := SetItemQuantity(items, productId, q);
    assert items == items[..k] + [items[k]] + items[k + 1..];
    assert r == items[..k] + [r[k]] + items[k + 1..];
    SubtotalConcat(items[..k] + [items[k]], items[k + 1..]);
    SubtotalConcat(items[..k], [items[k]]);
    SubtotalConcat(items[..k] + [r[k]], items[k + 1..]);
    SubtotalConcat(items[..k], [r[k]]);
    assert Subtotal([items[k]]) == OrZero(items[k].price) * OrZero(items[k].quantity) + Subtotal([items[k]][1..]);
    assert Subtotal([r[k]]) == OrZero(items[k].price) * q + Subtotal([r[k]][1..]);
  }

  /** The state of the cart page. */
  class CartPage {
    var token: Option<string>
    var cartItems: seq<ClientItem>
    var form: CheckoutForm
    var confirmDialogOpen: bool
    var toBeRemoved: Option<Id>
    var orderPreviewOpen: bool
    var clearCartDialogOpen: bool
    var loading: bool
    var snack: Option<Snack>

    /** The initial state, before the cart is fetched. */
    constructor (token: Option<string>)
      ensures this.token == token && cartItems == []
      ensures form == CheckoutForm("", "", "", "pickup", "dine-in", "", "")
      ensures !confirmDialogOpen && !orderPreviewOpen && !clearCartDialogOpen && !loading
      ensures toBeRemoved.None? && snack.None?
    {
      this.token := token;
      cartItems := [];
      form := CheckoutForm("", "", "", "pickup", "dine-in", "", "");
      confirmDialogOpen, orderPreviewOpen, clearCartDialogOpen, loading := false, false, false, false;
      toBeRemoved, snack := None, None;
    }

    /** `updateQuantity`: below 1 nothing is sent and only the removal
        confirmation opens; otherwise the new quantity is sent and, once the
        server accepts it, set on the product's items. */
    method UpdateQuantity(productId: Id, newQuantity: int, ok: bool) returns (sent: Option<Request>)
      modifies this`cartItems, this`confirmDialogOpen, this`toBeRemoved, this`loading, this`snack
      ensures !LoggedIn(token) ==>
        && sent.None? && cartItems == old(cartItems) && snack == Some(Snack("error", LoginToModify))
        && confirmDialogOpen == old(confirmDialogOpen) && toBeRemoved == old(toBeRemoved)
        && loading == old(loading)
      ensures LoggedIn(token) && newQuantity < 1 ==>
        && sent.None? && cartItems == old(cartItems) && loading == old(loading)
        && confirmDialogOpen && toBeRemoved == Some(productId) && snack == old(snack)
      ensures LoggedIn(token) && newQuantity >= 1 ==>
        && sent == Some(PutQuantity(productId, newQuantity)) && !loading
        && confirmDialogOpen == old(confirmDialogOpen) && toBeRemoved == old(toBeRemoved)
        && (ok ==> cartItems == SetItemQuantity(old(cartItems), productId, newQuantity)
                   && snack == Some(Snack("success", "Quantity updated.")))
        && (!ok ==> cartItems == old(cartItems) && snack == Some(Snack("error", "Failed to update quantity.")))
    {
      if !LoggedIn(token) {
        snack := Some(Snack("error", LoginToModify));
        return None;
      }
      if newQuantity < 1 {
        confirmDialogOpen := true;
        toBeRemoved := Some(productId);
        return None;
      }
      loading := true;
      sent := Some(PutQuantity(productId, newQuantity));
      if ok {
        cartItems := SetItemQuantity(cartItems, productId, newQuantity);
        snack := Some(Snack("success", "Quantity updated."));
      } else {
        snack := Some(Snack("error", "Failed to update quantity."));
      }
      loading := false;
    }

    /** `removeFromCart`: send the removal, drop the product's items once the
        server accepts it, and close the confirmation either way. */
    method RemoveFromCart(productId: Id, ok: bool) returns (sent: Option<Request>)
      modifies this`cartItems, this`confirmDialogOpen, this`loading, this`snack
      ensures !LoggedIn(token) ==>
        && sent.None? && cartItems == old(cartItems) && snack == Some(Snack("error", LoginToModify))
        && confirmDialogOpen == old(confirmDialogOpen) && loading == old(loading)
      ensures LoggedIn(token) ==>
        && sent == Some(DeleteItem(productId)) && !loading && !confirmDialogOpen
        && (ok ==> cartItems == WithoutItem(old(cartItems), productId)
                   && snack == Some(Snack("info", "Item removed from cart.")))
        && (!ok ==> cartItems == old(cartItems) && snack == Some(Snack("error", "Failed to remove item.")))
    {
      if !LoggedIn(token) {
        snack := Some(Snack("error", LoginToModify));
        return None;
      }
      loading := true;
      sent := Some(DeleteItem(productId));
      if ok {
        cartItems := WithoutItem(cartItems, productId);
        snack := Some(Snack("info", "Item removed from cart."));
      } else {
        snack := Some(Snack("error", "Failed to remove item."));
      }
      loading := false;
      confirmDialogOpen := false;
    }

    /** `openOrderPreview`: open the preview, or report the first failed check. */
    method OpenOrderPreview()
      modifies this`orderPreviewOpen, this`snack
      ensures PreviewError(form, cartItems).None? ==> orderPreviewOpen && snack == old(snack)
      ensures PreviewError(form, cartItems).Some? ==>
        orderPreviewOpen == old(orderPreviewOpen)
        && snack == Some(Snack("error", PreviewError(form, cartItems).value))
    {
      var err := PreviewError(form, cartItems);
      if err.Some? {
        snack := Some(Snack("error", err.value));
        return;
      }
      orderPreviewOpen := true;
    }

    /** `confirmPlaceOrder`: post the payload; once the order is accepted the
        local cart is empty and the preview closes. */
    method ConfirmPlaceOrder(ok: bool) returns (sent: Option<Request>)
      modifies this`cartItems, this`orderPreviewOpen, this`loading, this`snack
      ensures !LoggedIn(token) ==>
        && sent.None? && !orderPreviewOpen && cartItems == old(cartItems) && loading == old(loading)
        && snack == Some(Snack("error", LoginToOrder))
      ensures LoggedIn(token) ==>
        && sent == Some(PostOrder(MakePayload(old(form), old(cartItems)))) && !loading
        && (ok ==> cartItems == [] && !orderPreviewOpen
                   && snack == Some(Snack("success", "Your order has been placed. Please review details on the Orders page.")))
        && (!ok ==> cartItems == old(cartItems) && orderPreviewOpen == old(orderPreviewOpen)
                    && snack == Some(Snack("error", "Failed to place order. Please try again.")))
    {
      if !LoggedIn(token) {
        snack := Some(Snack("error", LoginToOrder));
        orderPreviewOpen := false;
        return None;
      }
      var payload := MakePayload(form, cartItems);
      loading := true;
      sent := Some(PostOrder(payload));
      if ok {
        cartItems := [];
        orderPreviewOpen := false;
        snack := Some(Snack("success", "Your order has been placed. Please review details on the Orders page."));
      } else {
        snack := Some(Snack("error", "Failed to place order. Please try again."));
      }
      loading := false;
    }

    /** The "Clear All" button: delete the whole cart; once the server accepts
        it the local cart is empty; the dialog closes either way. */
    method ClearCart(ok: bool) returns (sent: Request)
      modifies this`cartItems, this`clearCartDialogOpen, this`loading, this`snack
      ensures sent == DeleteCart && !loading && !clearCartDialogOpen
      ensures ok ==> cartItems == [] && snack == Some(Snack("info", "All items have been removed from your cart."))
      ensures !ok ==> cartItems == old(cartItems) && snack == Some(Snack("error", "Failed to clear cart. Please try again."))
    {
      loading := true;
      sent := DeleteCart;
      if ok {
        cartItems := [];
        snack := Some(Snack("info", "All items have been removed from your cart."));
      } else {
        snack := Some(Snack("error", "Failed to clear cart. Please try again."));
      }
      loading := false;
      clearCartDialogOpen := false;
    }
  }
}
