/** The request handlers of server/controllers/productController.js that guard
    references: a product must name an existing restaurant, and a product
    that some order refers to cannot be deleted. */
module ProductController {
  import opened Domain
  import opened OrderModel
  import opened Store

  /** The product fields of a request body; a field the client left out is `None`. */
  datatype ProductFields = ProductFields(
    name: Option<string>,
    description: Option<string>,
    price: Option<int>,
    category: Option<string>,
    restaurant: Option<string>)

  const ValidationFailed: string := "Product validation failed"
  const ProductNotFound: string := "Product not found"
  const ProductInOrders: string := "Cannot delete product, it is associated with existing orders"

  /** JavaScript truthiness of an optional string: present and non-empty. */
  predicate Given(s: Option<string>)
  {
    s.Some? && s.value != ""
  }

  /** The validators of server/models/productModel.js on a new document: image,
      name, price and category are required, and the category must cast to an
      ObjectId. */
  predicate SchemaAccepts(f: ProductFields, image: Option<string>, isValid: string -> bool)
  {
    Given(image) && Given(f.name) && f.price.Some? && f.category.Some? && isValid(f.category.value)
  }

  /** `createProduct`. `file` is the name multer gave the upload, if any, and
      `newId` the id the store assigns to the new document. */
  method CreateProduct(db: Db, isValid: string -> bool, f: ProductFields, file: Option<string>, newId: Id)
    returns (r: Response<Product>)
    requires newId !in db.products
    modifies db`products
    ensures old(db.Valid()) ==> db.Valid()
    ensures !Given(f.restaurant) ==> r == Error(400, "Restaurant is required") && db.products == old(db.products)
    ensures Given(f.restaurant) && !isValid(f.restaurant.value) ==>
      r == Error(400, "Invalid restaurant ID") && db.products == old(db.products)
    ensures Given(f.restaurant) && isValid(f.restaurant.value) && f.restaurant.value !in db.restaurants ==>
      r == Error(400, "Restaurant not found") && db.products == old(db.products)
    ensures Given(f.restaurant) && isValid(f.restaurant.value) && f.restaurant.value in db.restaurants ==>
      && (!SchemaAccepts(f, file, isValid) ==> r == Error(400, ValidationFailed) && db.products == old(db.products))
      && (SchemaAccepts(f, file, isValid) ==>
            && r.Ok? && r.status == 201
            && r.body.restaurant == f.restaurant.value && r.body.image == file.value
            && r.body.name == f.name.value && r.body.price == f.price.value
            && r.body.category == f.category.value && r.body.description == f.description
            && r.body.available
            && db.products == old(db.products)[newId := r.body])
  {
    if !Given(f.restaurant) {
      return Error(400, "Restaurant is required");
    }
    var rid := f.restaurant.value;
    if !isValid(rid) {
      return Error(400, "Invalid restaurant ID");
    }
    if rid !in db.restaurants {
      return Error(400, "Restaurant not found");
    }
    var image := file;
    if !SchemaAccepts(f, image, isValid) {
      return Error(400, ValidationFailed);
    }
    var p := Product(f.name.value, f.description, f.price.value, f.category.value, rid, image.value, true);
    if db.Valid() {
      AddProductResolves(db.orders, db.products, newId, p);
    }
    db.products := db.products[newId := p];
    r := Ok(201, p);
  }

  /** Adding a product never breaks an order's product references. */
  lemma AddProductResolves(orders: seq<Order>, products: map<Id, Product>, id: Id, p: Product)
    requires OrdersResolve(orders, products)
    ensures OrdersResolve(orders, products[id := p])
  {
    forall i, j | 0 <= i < |orders| && 0 <= j < |orders[i].items|
      ensures orders[i].items[j].product in products[id := p]
    {
    }
  }

  /** `getProductsByRestaurant`: the products whose restaurant is `restaurantId`. */
  function ProductsByRestaurant(products: map<Id, Product>, isValid: string -> bool, restaurantId: string)
    : (r: Response<map<Id, Product>>)
    ensures !isValid(restaurantId) <==> r == Error(400, "Invalid restaurant ID")
    ensures r.Ok? ==> r.status == 200
    ensures r.Ok? ==> forall id :: id in r.body <==> id in products && products[id].restaurant == restaurantId
    ensures r.Ok? ==> forall id :: id in r.body ==> r.body[id] == products[id]
  {
    if !isValid(restaurantId) then Error(400, "Invalid restaurant ID")
    else Ok(200, map id | id in products && products[id].restaurant == restaurantId :: products[id])
  }

  /** Every product is listed under its own restaurant and under no other. */
  lemma ProductListedOnce(products: map<Id, Product>, isValid: string -> bool, id: Id, other: string)
    requires id in products && isValid(products[id].restaurant) && isValid(other)
    ensures id in ProductsByRestaurant(products, isValid, products[id].restaurant).body
    ensures other != products[id].restaurant ==> id !in ProductsByRestaurant(products, isValid, other).body
  {
  }

  /** `updateProduct`: a supplied restaurant must be a valid id of an existing
      restaurant; then only the supplied fields (and the image, when a file
      was uploaded) are overwritten, without running the schema validators. */
  method UpdateProduct(db: Db, isValid: string -> bool, id: string, f: ProductFields, file: Option<string>)
    returns (r: Response<Product>)
    modifies db`products
    ensures old(db.Valid()) ==> db.Valid()
    ensures Given(f.restaurant) && !isValid(f.restaurant.value) ==>
      r == Error(400, "Invalid restaurant ID") && db.products == old(db.products)
    ensures Given(f.restaurant) && isValid(f.restaurant.value) && f.restaurant.value !in db.restaurants ==>
      r == Error(400, "Restaurant not found") && db.products == old(db.products)
    ensures !Given(f.restaurant) || (isValid(f.restaurant.value) && f.restaurant.value in db.restaurants) ==>
      && (!UpdateCasts(id, f, isValid) ==> r == Error(400, CastErrorMessage) && db.products == old(db.products))
      && (UpdateCasts(id, f, isValid) && id !in old(db.products) ==>
            r == Error(404, ProductNotFound) && db.products == old(db.products))
      && (UpdateCasts(id, f, isValid) && id in old(db.products) ==>
            r == Ok(200, Patched(old(db.products)[id], f, file))
            && db.products == old(db.products)[id := r.body])
  {
    if Given(f.restaurant) {
      if !isValid(f.restaurant.value) {
        return Error(400, "Invalid restaurant ID");
      }
      if f.restaurant.value !in db.restaurants {
        return Error(400, "Restaurant not found");
      }
    }
    if !UpdateCasts(id, f, isValid) {
      return Error(400, CastErrorMessage);
    }
    if id !in db.products {
      return Error(404, ProductNotFound);
    }
    var p := Patched(db.products[id], f, file);
    db.products := db.products[id := p];
    r := Ok(200, p);
  }

  /** The id and every supplied ObjectId field cast; otherwise
      `findByIdAndUpdate` throws a cast error. */
  predicate UpdateCasts(id: string, f: ProductFields, isValid: string -> bool)
  {
    isValid(id)
    && (f.category.Some? ==> isValid(f.category.value))
    && (f.restaurant.Some? ==> isValid(f.restaurant.value))
  }

  /** The document after the update: each supplied field replaced, the others kept. */
  function Patched(p: Product, f: ProductFields, file: Option<string>): (q: Product)
    ensures q.available == p.available
    ensures f.name.None? ==> q.name == p.name
    ensures f.price.None? ==> q.price == p.price
    ensures f.category.None? ==> q.category == p.category
    ensures f.restaurant.None? ==> q.restaurant == p.restaurant
    ensures file.None? ==> q.image == p.image
    ensures f.name.Some? ==> q.name == f.name.value
    ensures f.price.Some? ==> q.price == f.price.value
    ensures f.category.Some? ==> q.category == f.category.value
    ensures f.restaurant.Some? ==> q.restaurant == f.restaurant.value
    ensures q.description == if f.description.Some? then f.description else p.description
    ensures file.Some? ==> q.image == file.value
  {
    Product(
      if f.name.Some? then f.name.value else p.name,
      if f.description.Some? then f.description else p.description,
      if f.price.Some? then f.price.value else p.price,
      if f.category.Some? then f.category.value else p.category,
      if f.restaurant.Some? then f.restaurant.value else p.restaurant,
      if file.Some? then file.value else p.image,
      p.available)
  }

  /** An update with no fields and no file leaves the product as it was. */
  lemma EmptyPatchIdentity(p: Product)
    ensures Patched(p, ProductFields(None, None, None, None, None), None) == p
  {
  }

  /** `deleteProduct`: refused while any order refers to the product. */
  method DeleteProduct(db: Db, isValid: string -> bool, id: string) returns (r: Response<string>)
    modifies db`products
    ensures old(db.Valid()) ==> db.Valid()
    ensures !isValid(id) ==> r == Error(400, "Invalid product ID") && db.products == old(db.products)
    ensures isValid(id) && Referenced(db.orders, id) ==>
      r == Error(400, ProductInOrders) && db.products == old(db.products)
    ensures isValid(id) && !Referenced(db.orders, id) && id !in old(db.products) ==>
      r == Error(404, ProductNotFound) && db.products == old(db.products)
    ensures isValid(id) && !Referenced(db.orders, id) && id in old(db.products) ==>
      r == Ok(200, "Product deleted successfully") && db.products == old(db.products) - {id}
  {
    if !isValid(id) {
      return Error(400, "Invalid product ID");
    }
    var referenced := FindReferencingOrder(db.orders, id);
    if referenced.Some? {
      return Error(400, ProductInOrders);
    }
    if id !in db.products {
      return Error(404, ProductNotFound);
    }
    if db.Valid() {
      RemoveUnreferencedResolves(db.orders, db.products, id);
    }
    db.products := db.products - {id};
    r := Ok(200, "Product deleted successfully");
  }

  /** `Order.findOne({'items.product': id})`: the first order with a line for
      the product, scanning the orders and then each order's lines. */
  method FindReferencingOrder(orders: seq<Order>, id: Id) returns (r: Option<nat>)
    ensures r.None? <==> !Referenced(orders, id)
    ensures r.Some? ==>
      r.value < |orders| && exists j :: 0 <= j < |orders[r.value].items| && orders[r.value].items[j].product == id
  {
    var i := 0;
    while i < |orders|
      invariant 0 <= i <= |orders|
      invariant forall a, b :: 0 <= a < i && 0 <= b < |orders[a].items| ==> orders[a].items[b].product != id
    {
      var j := 0;
      while j < |orders[i].items|
        invariant 0 <= j <= |orders[i].items|
        invariant forall b :: 0 <= b < j ==> orders[i].items[b].product != id
      {
        if orders[i].items[j].product == id {
          return Some(i);
        }
        j := j + 1;
      }
      i := i + 1;
    }
    return None;
  }

  /** Removing a product no order refers to keeps every order's references
      resolving: while products are removed only this way, no order line
      ever dangles. */
  lemma RemoveUnreferencedResolves(orders: seq<Order>, products: map<Id, Product>, id: Id)
    requires OrdersResolve(orders, products) && !Referenced(orders, id)
    ensures OrdersResolve(orders, products - {id})
  {
    forall i, j | 0 <= i < |orders| && 0 <= j < |orders[i].items|
      ensures orders[i].items[j].product in products - {id}
    {
      assert orders[i].items[j].product != id;
    }
  }
}
