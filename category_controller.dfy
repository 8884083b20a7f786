/** The request handlers of server/controllers/categoryController.js: lookup,
    update and delete by id, and the availability switch that a category
    pushes down to all of its products. */
module CategoryController {
  import opened Domain
  import opened Store

  const CategoryNotFound: string := "Category not found"

  /** The category fields of an update body; a left-out field is `None`. */
  datatype CategoryPatch = CategoryPatch(name: Option<string>, available: Option<bool>)

  /** `Product.updateMany({category: id}, {available: flag})`. */
  function Propagate(products: map<Id, Product>, id: Id, flag: bool): (r: map<Id, Product>)
    ensures r.Keys == products.Keys
    ensures forall k :: k in r && r[k].category == id ==> r[k].available == flag
    ensures forall k :: k in r && products[k].category != id ==> r[k] == products[k]
    ensures forall k :: k in r ==> r[k].(available := products[k].available) == products[k]
  {
    map k | k in products :: if products[k].category == id then products[k].(available := flag) else products[k]
  }

  /** `toggleCategoryWithProducts`: negate the category's flag, save it, then
      give every product of the category the new flag. */
  method ToggleCategory(db: Db, isValid: string -> bool, id: string) returns (r: Response<bool>)
    modifies db`categories, db`products
    ensures old(db.Valid()) ==> db.Valid()
    ensures !isValid(id) ==>
      r == Error(400, CastErrorMessage) && db.categories == old(db.categories) && db.products == old(db.products)
    ensures isValid(id) && id !in old(db.categories) ==>
      r == Error(404, CategoryNotFound) && db.categories == old(db.categories) && db.products == old(db.products)
    ensures isValid(id) && id in old(db.categories) ==>
      var flag := !old(db.categories)[id].available;
      && r == Ok(200, flag)
      && db.categories == old(db.categories)[id := old(db.categories)[id].(available := flag)]
      && db.products == Propagate(old(db.products), id, flag)
  {
    if !isValid(id) {
      return Error(400, CastErrorMessage);
    }
    if id !in db.categories {
      return Error(404, CategoryNotFound);
    }
    var c := db.categories[id];
    c := c.(available := !c.available);
    db.categories := db.categories[id := c];
    var updated := Propagate(db.products, id, c.available);
    if db.Valid() {
      assert db.products.Keys == updated.Keys;
      assert OrdersResolve(db.orders, updated);
    }
    db.products := updated;
    r := Ok(200, c.available);
  }

  /** A later propagation overrides an earlier one. */
  lemma PropagateTwice(products: map<Id, Product>, id: Id, f1: bool, f2: bool)
    ensures Propagate(Propagate(products, id, f1), id, f2) == Propagate(products, id, f2)
  {
    var a := Propagate(Propagate(products, id, f1), id, f2);
    var b := Propagate(products, id, f2);
    assert a.Keys == b.Keys;
    forall k | k in a ensures a[k] == b[k] {
      var mid := Propagate(products, id, f1);
      assert mid[k].category == products[k].category;
    }
  }

  /** Toggling twice restores the category, and leaves each of its products
      available exactly when the category originally was, and every other
      product as it was. */
  lemma ToggleTwice(categories: map<Id, Category>, products: map<Id, Product>, id: Id)
    requires id in categories
    ensures var c := categories[id];
      var once := categories[id := c.(available := !c.available)];
      once[id := once[id].(available := !once[id].available)] == categories
    ensures var a := categories[id].available;
      Propagate(Propagate(products, id, !a), id, a) == Propagate(products, id, a)
  {
    var c := categories[id];
    var once := categories[id := c.(available := !c.available)];
    assert once[id := once[id].(available := !once[id].available)] == categories;
    PropagateTwice(products, id, !c.available, c.available);
  }

  /** `getCategoryById`. */
  function GetCategory(categories: map<Id, Category>, isValid: string -> bool, id: string): (r: Response<Category>)
    ensures !isValid(id) <==> r == Error(400, CastErrorMessage)
    ensures isValid(id) && id !in categories <==> r == Error(404, CategoryNotFound)
    ensures r.Ok? <==> isValid(id) && id in categories
    ensures r.Ok? ==> r.status == 200 && r.body == categories[id]
  {
    if !isValid(id) then Error(400, CastErrorMessage)
    else if id !in categories then Error(404, CategoryNotFound)
    else Ok(200, categories[id])
  }

  /** The category after an update: supplied fields replaced, the others kept. */
  function PatchedCategory(c: Category, patch: CategoryPatch): (d: Category)
    ensures patch.name.None? ==> d.name == c.name
    ensures patch.available.None? ==> d.available == c.available
    ensures patch.name.Some? ==> d.name == patch.name.value
    ensures patch.available.Some? ==> d.available == patch.available.value
  {
    Category(
      if patch.name.Some? then patch.name.value else c.name,
      if patch.available.Some? then patch.available.value else c.available)
  }

  /** `updateCategory`: unlike the toggle, this does not touch the products. */
  method UpdateCategory(db: Db, isValid: string -> bool, id: string, patch: CategoryPatch)
    returns (r: Response<Category>)
    modifies db`categories
    ensures !isValid(id) ==> r == Error(400, CastErrorMessage) && db.categories == old(db.categories)
    ensures isValid(id) && id !in old(db.categories) ==>
      r == Error(404, CategoryNotFound) && db.categories == old(db.categories)
    ensures isValid(id) && id in old(db.categories) ==>
      && r == Ok(200, PatchedCategory(old(db.categories)[id], patch))
      && db.categories == old(db.categories)[id := r.body]
  {
    if !isValid(id) {
      return Error(400, CastErrorMessage);
    }
    if id !in db.categories {
      return Error(404, CategoryNotFound);
    }
    var c := PatchedCategory(db.categories[id], patch);
    db.categories := db.categories[id := c];
    r := Ok(200, c);
  }

  /** `deleteCategory`: removes the category only; products that name it are
      left as they are. */
  method DeleteCategory(db: Db, isValid: string -> bool, id: string) returns (r: Response<string>)
    modifies db`categories
    ensures !isValid(id) ==> r == Error(400, CastErrorMessage) && db.categories == old(db.categories)
    ensures isValid(id) && id !in old(db.categories) ==>
      r == Error(404, CategoryNotFound) && db.categories == old(db.categories)
    ensures isValid(id) && id in old(db.categories) ==>
      r == Ok(200, "Category deleted successfully") && db.categories == old(db.categories) - {id}
  {
    if !isValid(id) {
      return Error(400, CastErrorMessage);
    }
    if id !in db.categories {
      return Error(404, CategoryNotFound);
    }
    db.categories := db.categories - {id};
    r := Ok(200, "Category deleted successfully");
  }
}
