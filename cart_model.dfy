/** The per-user cart of server/controllers/cartController.js as a value: a
    sequence of lines, and the pure effect each controller operation has on it.
    The cart schema itself is not part of this model; its shape is the one the
    controller reads and writes: `{product, quantity}` lines, plus a free-text
    note that the order controller does not copy. */
module CartModel {
  import opened Domain
  import opened Seqs

  datatype CartLine = CartLine(product: Id, quantity: int, note: string)

  /** The first line for product `p`, as `items.find(item => item.product.equals(p))`. */
  function LineIndex(items: seq<CartLine>, p: Id): (r: Option<nat>)
    ensures r.Some? ==> r.value < |items| && items[r.value].product == p
    ensures r.Some? ==> forall j :: 0 <= j < r.value ==> items[j].product != p
    ensures r.None? <==> forall j :: 0 <= j < |items| ==> items[j].product != p
  {
    if items == [] then None
    else if items[0].product == p then Some(0)
    else match LineIndex(items[1..], p)
      case None => None
      case Some(k) => Some(k + 1)
  }

  predicate HasLine(items: seq<CartLine>, p: Id)
  {
    exists j :: 0 <= j < |items| && items[j].product == p
  }

  /** The shape the controllers maintain: at most one line per product, and
      every quantity at least 1. */
  predicate WellFormed(items: seq<CartLine>)
  {
    && (forall i :: 0 <= i < |items| ==> items[i].quantity >= 1)
    && (forall i, j :: 0 <= i < j < |items| ==> items[i].product != items[j].product)
  }

  /** Total quantity the cart holds of product `p`, over all its lines. */
  function QuantityOf(items: seq<CartLine>, p: Id): int
  {
    if items == [] then 0
    else (if items[0].product == p then items[0].quantity else 0) + QuantityOf(items[1..], p)
  }

  /** The effect of a validated `addToCart`: increment the existing line, or append one. */
  function AddLine(items: seq<CartLine>, p: Id, q: int): seq<CartLine>
  {
    match LineIndex(items, p)
    case Some(i) => items[i := items[i].(quantity := items[i].quantity + q)]
    case None => items + [CartLine(p, q, "")]
  }

  /** `items.filter(item => !item.product.equals(p))`. */
  function RemoveLines(items: seq<CartLine>, p: Id): seq<CartLine>
  {
    Filter(items, (l: CartLine) => l.product != p)
  }

  /** The effect of a successful `updateQuantity`: overwrite the first line for `p`. */
  function SetLineQuantity(items: seq<CartLine>, p: Id, q: int): seq<CartLine>
  {
    match LineIndex(items, p)
    case Some(i) => items[i := items[i].(quantity := q)]
    case None => items
  }

  /** The lines whose product still exists in the catalogue. */
  function Resolving(items: seq<CartLine>, products: map<Id, Product>): seq<CartLine>
  {
    Filter(items, (l: CartLine) => l.product in products)
  }

  /** A product reference after `populate`: the document, or null when it is gone. */
  datatype Entry = Entry(id: Id, info: Product)
  datatype PopLine = PopLine(product: Option<Entry>, quantity: int, note: string)

  function PopulateLine(l: CartLine, products: map<Id, Product>): PopLine
  {
    PopLine(if l.product in products then Some(Entry(l.product, products[l.product])) else None,
            l.quantity, l.note)
  }

  /** `populate('items.product')`: every line, its reference resolved or nulled. */
  function Populate(items: seq<CartLine>, products: map<Id, Product>): (r: seq<PopLine>)
    ensures |r| == |items|
    ensures forall i :: 0 <= i < |items| ==> r[i] == PopulateLine(items[i], products)
  {
    seq(|items|, i requires 0 <= i < |items| => PopulateLine(items[i], products))
  }

  /** `items.filter(item => item.product)` on a populated cart. */
  function Live(lines: seq<PopLine>): seq<PopLine>
  {
    Filter(lines, (l: PopLine) => l.product.Some?)
  }

  // ----- addToCart -----

  lemma {:induction false} QuantityOfUpdate(items: seq<CartLine>, i: nat, l: CartLine, p: Id)
    requires i < |items|
    ensures QuantityOf(items[i := l], p) ==
      QuantityOf(items, p) - (if items[i].product == p then items[i].quantity else 0)
                           + (if l.product == p then l.quantity else 0)
  {
    if i > 0 {
      QuantityOfUpdate(items[1..], i - 1, l, p);
      assert items[i := l][1..] == items[1..][i - 1 := l];
    }
  }

  lemma {:induction false} QuantityOfAppend(items: seq<CartLine>, l: CartLine, p: Id)
    ensures QuantityOf(items + [l], p) == QuantityOf(items, p) + (if l.product == p then l.quantity else 0)
  {
    if items != [] {
      QuantityOfAppend(items[1..], l, p);
      assert (items + [l])[1..] == items[1..] + [l];
    }
  }

  /** Adding `q` of `p` raises the cart's quantity of `p` by exactly `q` and
      leaves every other product's quantity as it was. */
  lemma AddLineQuantity(items: seq<CartLine>, p: Id, q: int, other: Id)
    ensures QuantityOf(AddLine(items, p, q), p) == QuantityOf(items, p) + q
    ensures other != p ==> QuantityOf(AddLine(items, p, q), other) == QuantityOf(items, other)
  {
    match LineIndex(items, p)
    case Some(i) =>
      QuantityOfUpdate(items, i, items[i].(quantity := items[i].quantity + q), p);
      QuantityOfUpdate(items, i, items[i].(quantity := items[i].quantity + q), other);
    case None =>
      QuantityOfAppend(items, CartLine(p, q, ""), p);
      QuantityOfAppend(items, CartLine(p, q, ""), other);
  }

  /** An existing product's line is incremented in place and no line is added;
      a new product gets exactly one appended line `{product, quantity}`. */
  lemma AddLineShape(items: seq<CartLine>, p: Id, q: int)
    ensures HasLine(items, p) ==> |AddLine(items, p, q)| == |items|
    ensures !HasLine(items, p) ==> AddLine(items, p, q) == items + [CartLine(p, q, "")]
    ensures forall j :: 0 <= j < |items| && items[j].product != p ==> AddLine(items, p, q)[j] == items[j]
  {
  }

  /** Adding a quantity of at least 1 keeps one line per product and every
      quantity at least 1. */
  lemma AddLineWellFormed(items: seq<CartLine>, p: Id, q: int)
    requires WellFormed(items) && q >= 1
    ensures WellFormed(AddLine(items, p, q))
  {
  }

  /** Adding the same product repeatedly, one call per quantity in `qs`. */
  function AddAll(items: seq<CartLine>, p: Id, qs: seq<int>): seq<CartLine>
    decreases |qs|
  {
    if qs == [] then items else AddAll(AddLine(items, p, qs[0]), p, qs[1..])
  }

  function Sum(qs: seq<int>): int
  {
    if qs == [] then 0 else qs[0] + Sum(qs[1..])
  }

  /** Repeated adds of one product sum: the quantity grows by the sum of the
      added amounts, and the cart keeps a single line for the product. */
  lemma {:induction false} RepeatedAddsSum(items: seq<CartLine>, p: Id, qs: seq<int>)
    requires WellFormed(items)
    requires forall k :: 0 <= k < |qs| ==> qs[k] >= 1
    ensures QuantityOf(AddAll(items, p, qs), p) == QuantityOf(items, p) + Sum(qs)
    ensures WellFormed(AddAll(items, p, qs))
    decreases |qs|
  {
    if qs != [] {
      AddLineQuantity(items, p, qs[0], p);
      AddLineWellFormed(items, p, qs[0]);
      RepeatedAddsSum(AddLine(items, p, qs[0]), p, qs[1..]);
    }
  }

  /** In a well-formed cart the quantity of `p` is that of its single line. */
  lemma {:induction false} QuantityOfSingleLine(items: seq<CartLine>, p: Id, i: nat)
    requires WellFormed(items) && i < |items| && items[i].product == p
    ensures QuantityOf(items, p) == items[i].quantity
  {
    if i == 0 {
      QuantityOfAbsent(items[1..], p);
    } else {
      QuantityOfSingleLine(items[1..], p, i - 1);
    }
  }

  lemma {:induction false} QuantityOfAbsent(items: seq<CartLine>, p: Id)
    requires forall j :: 0 <= j < |items| ==> items[j].product != p
    ensures QuantityOf(items, p) == 0
  {
    if items != [] {
      QuantityOfAbsent(items[1..], p);
    }
  }

  // ----- removeFromCart -----

  /** Removal keeps exactly the lines of other products, in their order, and
      leaves no line for `p`. */
  lemma RemoveLinesSpec(items: seq<CartLine>, p: Id, l: CartLine)
    ensures l in RemoveLines(items, p) <==> l in items && l.product != p
    ensures forall j :: 0 <= j < |RemoveLines(items, p)| ==> RemoveLines(items, p)[j].product != p
    ensures Subsequence(RemoveLines(items, p), items)
  {
    FilterMembership(items, (l: CartLine) => l.product != p, l);
    FilterSubsequence(items, (l: CartLine) => l.product != p);
  }

  /** Removing a product the cart does not hold changes nothing; so removal is
      idempotent. */
  lemma RemoveLinesIdempotent(items: seq<CartLine>, p: Id)
    ensures !HasLine(items, p) ==> RemoveLines(items, p) == items
    ensures RemoveLines(RemoveLines(items, p), p) == RemoveLines(items, p)
  {
    if !HasLine(items, p) {
      FilterAllKept(items, (l: CartLine) => l.product != p);
    }
    FilterIdempotent(items, (l: CartLine) => l.product != p);
  }

  lemma {:induction false} RemoveLinesQuantity(items: seq<CartLine>, p: Id, other: Id)
    ensures QuantityOf(RemoveLines(items, p), p) == 0
    ensures other != p ==> QuantityOf(RemoveLines(items, p), other) == QuantityOf(items, other)
  {
    if items != [] {
      RemoveLinesQuantity(items[1..], p, other);
    }
  }

  /** Removal keeps a well-formed cart well formed. */
  lemma RemoveLinesWellFormed(items: seq<CartLine>, p: Id)
    requires WellFormed(items)
    ensures WellFormed(RemoveLines(items, p))
  {
    var r := RemoveLines(items, p);
    forall i | 0 <= i < |r| ensures r[i].quantity >= 1 {
      RemoveLinesSpec(items, p, r[i]);
    }
    forall i, j | 0 <= i < j < |r| ensures r[i].product != r[j].product {
      FilteredDistinct(items, (l: CartLine) => l.product != p, i, j);
    }
  }

  /** Products stay pairwise distinct under any filter. */
  lemma {:induction false} FilteredDistinct(items: seq<CartLine>, keep: CartLine -> bool, i: nat, j: nat)
    requires forall a, b :: 0 <= a < b < |items| ==> items[a].product != items[b].product
    requires i < j < |Filter(items, keep)|
    ensures Filter(items, keep)[i].product != Filter(items, keep)[j].product
  {
    var r := Filter(items, keep);
    if keep(items[0]) {
      if i == 0 {
        FilterMembership(items[1..], keep, r[j]);
        assert r[j] in items[1..];
      } else {
        FilteredDistinct(items[1..], keep, i - 1, j - 1);
      }
    } else {
      FilteredDistinct(items[1..], keep, i, j);
    }
  }

  // ----- updateQuantity -----

  /** In a well-formed cart holding `p`, the update sets `p`'s quantity to
      exactly `q`, leaves the other lines as they were, and keeps the cart
      well formed when `q` is at least 1. */
  lemma SetLineQuantitySpec(items: seq<CartLine>, p: Id, q: int)
    requires WellFormed(items) && HasLine(items, p)
    ensures QuantityOf(SetLineQuantity(items, p, q), p) == q
    ensures |SetLineQuantity(items, p, q)| == |items|
    ensures forall j :: 0 <= j < |items| && items[j].product != p ==> SetLineQuantity(items, p, q)[j] == items[j]
    ensures q >= 1 ==> WellFormed(SetLineQuantity(items, p, q))
  {
    var i := LineIndex(items, p).value;
    QuantityOfUpdate(items, i, items[i].(quantity := q), p);
    QuantityOfSingleLine(items, p, i);
  }

  // ----- getCart -----

  /** The live view of a populated cart is exactly the populated resolving
      lines, in stored order; every one of them carries its product. */
  lemma {:induction false} LivePopulate(items: seq<CartLine>, products: map<Id, Product>)
    ensures Live(Populate(items, products)) == Populate(Resolving(items, products), products)
    ensures forall j :: 0 <= j < |Live(Populate(items, products))| ==>
      Live(Populate(items, products))[j].product.Some?
  {
    if items != [] {
      LivePopulate(items[1..], products);
      assert Populate(items, products)[1..] == Populate(items[1..], products);
      assert Populate(items, products)[0] == PopulateLine(items[0], products);
      if items[0].product in products {
        assert Populate(Resolving(items, products), products)
            == [PopulateLine(items[0], products)] + Populate(Resolving(items[1..], products), products);
      }
    }
  }

  /** A stored line shows up in the fetched cart exactly when its product exists. */
  lemma ResolvingSpec(items: seq<CartLine>, products: map<Id, Product>, l: CartLine)
    ensures l in Resolving(items, products) <==> l in items && l.product in products
    ensures Subsequence(Resolving(items, products), items)
  {
    FilterMembership(items, (l: CartLine) => l.product in products, l);
    FilterSubsequence(items, (l: CartLine) => l.product in products);
  }
}
