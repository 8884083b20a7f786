/** The MongoDB collections the controllers read and write, as one object whose
    fields the request handlers update in place. Orders are identified by their
    position in `orders`; every other collection is keyed by document id. */
module Store {
  import opened Domain
  import opened CartModel
  import opened OrderModel

  /** Some stored order has a line referring to product `p`
      (the query `Order.findOne({'items.product': p})`). */
  predicate Referenced(orders: seq<Order>, p: Id)
  {
    exists i, j :: 0 <= i < |orders| && 0 <= j < |orders[i].items| && orders[i].items[j].product == p
  }

  /** Every order line refers to a product that exists. */
  predicate OrdersResolve(orders: seq<Order>, products: map<Id, Product>)
  {
    forall i, j :: 0 <= i < |orders| && 0 <= j < |orders[i].items| ==> orders[i].items[j].product in products
  }

  /** The cart stored for user `u`, or none. */
  function CartOf(carts: map<Id, seq<CartLine>>, u: Id): Option<seq<CartLine>>
  {
    if u in carts then Some(carts[u]) else None
  }

  class Db {
    var products: map<Id, Product>
    var restaurants: map<Id, Restaurant>
    var categories: map<Id, Category>
    var carts: map<Id, seq<CartLine>>
    var orders: seq<Order>

    /** What the controllers keep true of the collections: carts have one line
        per product with quantities at least 1, stored orders passed the schema
        validators, and no order refers to a deleted product. */
    ghost predicate Valid()
      reads this
    {
      && (forall u :: u in carts ==> WellFormed(carts[u]))
      && (forall i :: 0 <= i < |orders| ==> Conforms(orders[i]))
      && OrdersResolve(orders, products)
    }

    constructor ()
      ensures Valid()
      ensures products == map[] && restaurants == map[] && categories == map[]
      ensures carts == map[] && orders == []
    {
      products, restaurants, categories := map[], map[], map[];
      carts, orders := map[], [];
    }
  }
}
