/** server/controllers/orderController.js: turning the user's cart into a
    completed order (`placeOrder`) and listing orders by role (`getOrders`). */
module OrderController {
  import opened Domain
  import opened Seqs
  import opened CartModel
  import opened OrderModel
  import opened Store

  /** Price times quantity of one line; a line whose product is gone adds nothing. */
  function LineAmount(l: CartLine, products: map<Id, Product>): int
  {
    if l.product in products then products[l.product].price * l.quantity else 0
  }

  /** `items.reduce((sum, item) => sum + price * quantity, 0)`. */
  function LinesTotal(items: seq<CartLine>, products: map<Id, Product>): int
  {
    if items == [] then 0 else LineAmount(items[0], products) + LinesTotal(items[1..], products)
  }

  /** `validItems.map(item => ({product: item.product._id, quantity: item.quantity}))`:
      only the product id and quantity are copied, never the note. */
  function DraftLines(items: seq<CartLine>): (r: seq<LineDraft>)
    ensures |r| == |items|
    ensures forall i :: 0 <= i < |items| ==>
      r[i] == LineDraft(Some(items[i].product), Some(items[i].quantity), None)
  {
    seq(|items|, i requires 0 <= i < |items| => LineDraft(Some(items[i].product), Some(items[i].quantity), None))
  }

  /** The object passed to `new Order(...)` for the resolving lines `valid`. */
  function OrderDraftFor(user: Id, customerName: Option<string>, customerPhone: Option<string>,
                         valid: seq<CartLine>, products: map<Id, Product>): OrderDraft
  {
    OrderDraft(Some(user), customerName, customerPhone, None, None, None, None, None,
               DraftLines(valid), Some(LinesTotal(valid, products)), Some("completed"))
  }

  /** The pure part of `placeOrder`: reject an empty cart, drop dangling lines,
      reject when nothing is left, then build the order the schema would save
      (a schema rejection surfaces as a 500 from the handler's catch). */
  function Checkout(cart: Option<seq<CartLine>>, products: map<Id, Product>, user: Id,
                    customerName: Option<string>, customerPhone: Option<string>): (r: Response<Order>)
    ensures (cart.None? || cart.value == []) ==> r == Error(400, "Cart is empty")
    ensures cart.Some? && cart.value != [] && Resolving(cart.value, products) == [] ==>
      r == Error(400, "Some products are no longer available")
    ensures r.Ok? ==> cart.Some? && r.status == 201
    ensures r.Ok? ==> var valid := Resolving(cart.value, products);
      && r.body.user == user
      && r.body.status == Completed
      && r.body.customerName == customerName && r.body.customerPhone == customerPhone
      && r.body.total == LinesTotal(valid, products)
      && r.body.items == seq(|valid|, i requires 0 <= i < |valid| =>
           OrderLine(valid[i].product, valid[i].quantity, ""))
      && r.body.notes == ""
      && r.body.fulfillment.None? && r.body.pickupType.None?
      && r.body.region.None? && r.body.deliveryAddress.None?
  {
    if cart.None? || cart.value == [] then Error(400, "Cart is empty")
    else
      var valid := Resolving(cart.value, products);
      if valid == [] then Error(400, "Some products are no longer available")
      else
        match Build(OrderDraftFor(user, customerName, customerPhone, valid, products))
        case None => Error(500, InternalError)
        case Some(o) => Ok(201, o)
  }

  /** `placeOrder`: save the order, then delete the cart. `saveOk` and
      `deleteOk` say whether the two store writes succeed; the cart goes away
      only after the order is stored. */
  method PlaceOrder(db: Db, user: Id, customerName: Option<string>, customerPhone: Option<string>,
                    saveOk: bool, deleteOk: bool) returns (r: Response<Order>)
    modifies db`carts, db`orders
    ensures old(db.Valid()) ==> db.Valid()
    ensures var c := Checkout(CartOf(old(db.carts), user), db.products, user, customerName, customerPhone);
      && (c.Error? ==> r == c && db.orders == old(db.orders) && db.carts == old(db.carts))
      && (c.Ok? && !saveOk ==>
            r == Error(500, InternalError) && db.orders == old(db.orders) && db.carts == old(db.carts))
      && (c.Ok? && saveOk ==> db.orders == old(db.orders) + [c.body])
      && (c.Ok? && saveOk && !deleteOk ==> r == Error(500, InternalError) && db.carts == old(db.carts))
      && (c.Ok? && saveOk && deleteOk ==> r == c && db.carts == old(db.carts) - {user})
  {
    var c := Checkout(CartOf(db.carts, user), db.products, user, customerName, customerPhone);
    if c.Error? {
      return c;
    }
    if !saveOk {
      return Error(500, InternalError);
    }
    if db.Valid() {
      CheckoutConformsAndResolves(CartOf(db.carts, user), db.products, user, customerName, customerPhone);
    }
    db.orders := db.orders + [c.body];
    if !deleteOk {
      return Error(500, InternalError);
    }
    db.carts := db.carts - {user};
    r := c;
  }

  /** The order that checkout builds passes the line validators and refers
      only to existing products. */
  lemma CheckoutConformsAndResolves(cart: Option<seq<CartLine>>, products: map<Id, Product>, user: Id,
                                    customerName: Option<string>, customerPhone: Option<string>)
    requires Checkout(cart, products, user, customerName, customerPhone).Ok?
    ensures var o := Checkout(cart, products, user, customerName, customerPhone).body;
      Conforms(o) && forall j :: 0 <= j < |o.items| ==> o.items[j].product in products
  {
    var valid := Resolving(cart.value, products);
    var o := Checkout(cart, products, user, customerName, customerPhone).body;
    forall j | 0 <= j < |o.items| ensures o.items[j].product in products {
      assert o.items[j].product == valid[j].product;
      ResolvingSpec(cart.value, products, valid[j]);
    }
  }

  /** A well-formed cart with at least one resolving line always checks out:
      the schema never rejects what the cart controller stores. */
  lemma CheckoutSucceeds(items: seq<CartLine>, products: map<Id, Product>, user: Id,
                         customerName: Option<string>, customerPhone: Option<string>)
    requires WellFormed(items)
    requires exists j :: 0 <= j < |items| && items[j].product in products
    ensures Checkout(Some(items), products, user, customerName, customerPhone).Ok?
  {
    var j :| 0 <= j < |items| && items[j].product in products;
    var valid := Resolving(items, products);
    ResolvingSpec(items, products, items[j]);
    forall k | 0 <= k < |valid| ensures valid[k].quantity >= 1 {
      ResolvingSpec(items, products, valid[k]);
    }
    assert Accepted(OrderDraftFor(user, customerName, customerPhone, valid, products));
  }

  /** The total is additive over the lines. */
  lemma {:induction false} LinesTotalConcat(a: seq<CartLine>, b: seq<CartLine>, products: map<Id, Product>)
    ensures LinesTotal(a + b, products) == LinesTotal(a, products) + LinesTotal(b, products)
  {
    if a != [] {
      LinesTotalConcat(a[1..], b, products);
      assert (a + b)[1..] == a[1..] + b;
    } else {
      assert a + b == b;
    }
  }

  /** Dropping dangling lines does not change the total: the order total is
      the sum of price times quantity over all the cart's live lines. */
  lemma {:induction false} LinesTotalResolving(items: seq<CartLine>, products: map<Id, Product>)
    ensures LinesTotal(Resolving(items, products), products) == LinesTotal(items, products)
  {
    if items != [] {
      LinesTotalResolving(items[1..], products);
    }
  }

  /** Two lines, 2 at 500 cents and 1 at 350 cents, total 1350 cents. */
  lemma TotalExample(x: Id, y: Id, px: Product, py: Product)
    requires x != y && px.price == 500 && py.price == 350
    ensures LinesTotal([CartLine(x, 2, ""), CartLine(y, 1, "")], map[x := px, y := py]) == 1350
  {
    var items := [CartLine(x, 2, ""), CartLine(y, 1, "")];
    var products := map[x := px, y := py];
    assert products[x] == px && products[y] == py;
    assert items[1..] == [CartLine(y, 1, "")];
    assert LinesTotal(items[1..], products) == 350 + LinesTotal(items[1..][1..], products);
    assert items[1..][1..] == [];
  }

  /** `getOrders`: an admin sees every order, anyone else only their own. */
  function VisibleOrders(orders: seq<Order>, requester: Requester): seq<Order>
  {
    if requester.role == Some("admin") then orders
    else Filter(orders, (o: Order) => o.user == requester.id)
  }

  /** An admin gets the whole collection; any other requester gets exactly the
      orders they own, in stored order. */
  lemma VisibleOrdersSpec(orders: seq<Order>, requester: Requester, o: Order)
    ensures requester.role == Some("admin") ==> VisibleOrders(orders, requester) == orders
    ensures requester.role != Some("admin") ==>
      (o in VisibleOrders(orders, requester) <==> o in orders && o.user == requester.id)
    ensures Subsequence(VisibleOrders(orders, requester), orders)
  {
    FilterMembership(orders, (o: Order) => o.user == requester.id, o);
    FilterSubsequence(orders, (o: Order) => o.user == requester.id);
    if requester.role == Some("admin") {
      FilterAllKept(orders, (o: Order) => true);
      FilterSubsequence(orders, (o: Order) => true);
    }
  }
}
