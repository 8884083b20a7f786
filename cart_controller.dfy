/** The request handlers of server/controllers/cartController.js. Each one
    reads the user's cart, changes its lines, and writes the whole cart back
    (`save`); the response carries the cart after `populate`. */
module CartController {
  import opened Domain
  import opened Seqs
  import opened CartModel
  import opened Store

  /** `items.find(item => item.product.equals(p))`, by a left-to-right scan. */
  method FindLine(items: seq<CartLine>, p: Id) returns (r: Option<nat>)
    ensures r == LineIndex(items, p)
  {
    var i := 0;
    while i < |items|
      invariant 0 <= i <= |items|
      invariant forall j :: 0 <= j < i ==> items[j].product != p
    {
      if items[i].product == p {
        return Some(i);
      }
      i := i + 1;
    }
    return None;
  }

  /** `addToCart`: validate the request, then increment the product's line or
      append a new one, creating the cart on first use. */
  method AddToCart(db: Db, isValid: string -> bool, user: Id, productId: Option<string>, quantity: Option<int>)
    returns (r: Response<seq<PopLine>>)
    modifies db`carts
    ensures old(db.Valid()) ==> db.Valid()
    ensures productId.None? || productId.value == "" || quantity.None? || quantity.value < 1 ==>
      r == Error(400, "Invalid product ID or quantity") && db.carts == old(db.carts)
    ensures productId.Some? && productId.value != "" && quantity.Some? && quantity.value >= 1 ==>
      var p, q := productId.value, quantity.value;
      && (!isValid(p) ==> r == Error(400, "Invalid product ID format") && db.carts == old(db.carts))
      && (isValid(p) && p !in db.products ==>
            r == Error(400, "Product not found or deleted") && db.carts == old(db.carts))
      && (isValid(p) && p in db.products ==>
            var before := if user in old(db.carts) then old(db.carts)[user] else [];
            && db.carts == old(db.carts)[user := AddLine(before, p, q)]
            && r == Ok(200, Live(Populate(db.carts[user], db.products))))
  {
    if productId.None? || productId.value == "" || quantity.None? || quantity.value < 1 {
      return Error(400, "Invalid product ID or quantity");
    }
    var p, q := productId.value, quantity.value;
    if !isValid(p) {
      return Error(400, "Invalid product ID format");
    }
    if p !in db.products {
      return Error(400, "Product not found or deleted");
    }
    var items := if user in db.carts then db.carts[user] else [];
    ghost var before := items;
    var found := FindLine(items, p);
    if found.Some? {
      var i := found.value;
      items := items[i := items[i].(quantity := items[i].quantity + q)];
    } else {
      items := items + [CartLine(p, q, "")];
    }
    assert items == AddLine(before, p, q);
    if db.Valid() {
      AddLineWellFormed(before, p, q);
      assert WellFormed(items);
    }
    db.carts := db.carts[user := items];
    r := Ok(200, Live(Populate(items, db.products)));
  }

  /** `getCart`: the stored lines whose product still exists, populated, in
      stored order; an empty list when the user has no cart. */
  method GetCart(db: Db, user: Id) returns (r: Response<seq<PopLine>>)
    ensures user !in db.carts ==> r == Ok(200, [])
    ensures user in db.carts ==> r == Ok(200, Populate(Resolving(db.carts[user], db.products), db.products))
    ensures forall j :: 0 <= j < |r.body| ==> r.body[j].product.Some?
  {
    if user !in db.carts {
      return Ok(200, []);
    }
    var lines := Live(Populate(db.carts[user], db.products));
    LivePopulate(db.carts[user], db.products);
    r := Ok(200, lines);
  }

  /** `removeFromCart`: drop every line of the product; the user must have a cart. */
  method RemoveFromCart(db: Db, isValid: string -> bool, user: Id, productId: string)
    returns (r: Response<seq<PopLine>>)
    modifies db`carts
    ensures old(db.Valid()) ==> db.Valid()
    ensures !isValid(productId) ==> r == Error(400, "Invalid product ID format") && db.carts == old(db.carts)
    ensures isValid(productId) && user !in old(db.carts) ==>
      r == Error(404, "Cart not found") && db.carts == old(db.carts)
    ensures isValid(productId) && user in old(db.carts) ==>
      && db.carts == old(db.carts)[user := RemoveLines(old(db.carts)[user], productId)]
      && r == Ok(200, Populate(db.carts[user], db.products))
  {
    if !isValid(productId) {
      return Error(400, "Invalid product ID format");
    }
    if user !in db.carts {
      return Error(404, "Cart not found");
    }
    var items := RemoveLines(db.carts[user], productId);
    if old(db.Valid()) {
      RemoveLinesWellFormed(db.carts[user], productId);
    }
    db.carts := db.carts[user := items];
    r := Ok(200, Populate(items, db.products));
  }

  /** `updateQuantity`: set the product's line to an absolute quantity of at least 1. */
  method UpdateQuantity(db: Db, isValid: string -> bool, user: Id, productId: string, quantity: Option<int>)
    returns (r: Response<seq<PopLine>>)
    modifies db`carts
    ensures old(db.Valid()) ==> db.Valid()
    ensures !isValid(productId) ==> r == Error(400, "Invalid product ID format") && db.carts == old(db.carts)
    ensures isValid(productId) && (quantity.None? || quantity.value < 1) ==>
      r == Error(400, "Quantity must be at least 1") && db.carts == old(db.carts)
    ensures isValid(productId) && quantity.Some? && quantity.value >= 1 ==>
      && (user !in old(db.carts) ==> r == Error(404, "Cart not found") && db.carts == old(db.carts))
      && (user in old(db.carts) && !HasLine(old(db.carts)[user], productId) ==>
            r == Error(404, "Product not in cart") && db.carts == old(db.carts))
      && (user in old(db.carts) && HasLine(old(db.carts)[user], productId) ==>
            && db.carts == old(db.carts)[user := SetLineQuantity(old(db.carts)[user], productId, quantity.value)]
            && r == Ok(200, Populate(db.carts[user], db.products)))
  {
    if !isValid(productId) {
      return Error(400, "Invalid product ID format");
    }
    if quantity.None? || quantity.value < 1 {
      return Error(400, "Quantity must be at least 1");
    }
    if user !in db.carts {
      return Error(404, "Cart not found");
    }
    var items := db.carts[user];
    var found := FindLine(items, productId);
    if found.None? {
      return Error(404, "Product not in cart");
    }
    var i := found.value;
    if old(db.Valid()) {
      SetLineQuantitySpec(items, productId, quantity.value);
    }
    items := items[i := items[i].(quantity := quantity.value)];
    db.carts := db.carts[user := items];
    r := Ok(200, Populate(items, db.products));
  }
}
