# Calltic ordering core in Dafny

Calltic is a restaurant food-ordering system: an Express/Mongoose server
(carts, orders, products, categories, an admin dashboard and an admin-only
middleware) and a React client (the cart page, the orders page and the
restaurant management page). This project models the core of both sides and
proves what they promise.

Server side:

- The MongoDB collections are one object, `Store.Db`. The request handlers
  are methods over it, and each states the new collections and the response
  for every branch:
  - the carts (`CartController`);
  - checkout and order listing (`OrderController`);
  - products (`ProductController`);
  - categories (`CategoryController`).
- Each handler also preserves `Db.Valid()`:
  - a cart holds one line per product;
  - quantities are at least 1;
  - stored orders passed the order schema;
  - no order refers to a deleted product.
- The order schema (`OrderModel`) is a datatype plus the validators and
  defaults that `new Order(...).save()` applies.
- The dashboard aggregations (`Grouping`, `SalesPipeline`, `Dashboard`) are
  modelled stage by stage. Each is proved to agree with a direct definition,
  one output document per key: per restaurant, the number of orders that touch
  it and the sum of their totals; per role, the number of users; per user, the
  number of their orders.
- The admin middleware (`AdminAuth`) is a function from the Authorization
  header to "next" or a 401/403 answer.

Client side:

- The page state is a class per component (`ClientCart.CartPage`,
  `ClientOrders.OrdersPage`, `ClientRestaurant.RestaurantPage`).
- The pure parts are functions:
  - the cart totals;
  - the checkout checks;
  - the order payload;
  - the order search and pagination;
  - the restaurant form checks.

Modelling conventions:

- Ids are strings. `mongoose.Types.ObjectId.isValid` and `jwt.verify` are
  function parameters (`isValid`, `verify`).
- Prices are integers, read as cents.
- A store write that may fail is a boolean parameter, and so is a client
  network call.
- Orders are identified by their position in the collection.
- `populate` is a map lookup that yields `None` for a deleted product.

## Model

| member | source | states |
|---|---|---|
| CartModel.LineIndex | server/controllers/cartController.js:30 | the index found is the first line for the product; none means no line has it |
| CartController.FindLine | server/controllers/cartController.js:30 | the left-to-right scan returns exactly the first line for the product |
| CartModel.AddLineQuantity | server/controllers/cartController.js:30-35 | adding q of p raises the cart's quantity of p by q and leaves every other product's quantity unchanged |
| CartModel.AddLineShape | server/controllers/cartController.js:30-35 | an existing line is incremented in place with no line added; a new product gets one appended line; other lines are untouched |
| CartModel.AddLineWellFormed | server/controllers/cartController.js:11-13 | adding a quantity of at least 1 keeps one line per product and all quantities at least 1 |
| CartModel.RepeatedAddsSum | server/controllers/cartController.js:30-35 | repeated adds of one product sum their quantities and keep a single line |
| CartModel.RemoveLinesSpec | server/controllers/cartController.js:91 | removal keeps exactly the other products' lines, in order, and leaves no line for the product |
| CartModel.RemoveLinesIdempotent | server/controllers/cartController.js:91 | removing an absent product changes nothing; removing twice equals removing once |
| CartModel.RemoveLinesQuantity | server/controllers/cartController.js:91 | after removal the product's quantity is 0 and other quantities are unchanged |
| CartModel.RemoveLinesWellFormed | server/controllers/cartController.js:91 | removal preserves one line per product and positive quantities |
| CartModel.SetLineQuantitySpec | server/controllers/cartController.js:126-131 | in a well-formed cart holding p, the update sets p's quantity to exactly q and touches no other line |
| CartModel.Populate | server/controllers/cartController.js:58-61 | every line is kept, its product resolved when it exists and null otherwise |
| CartModel.LivePopulate | server/controllers/cartController.js:68 | filtering the populated cart equals populating the lines whose product exists, and every kept line carries its product |
| CartModel.ResolvingSpec | server/controllers/cartController.js:68 | a stored line is shown exactly when its product exists; order is preserved |
| CartController.AddToCart | server/controllers/cartController.js:7-53 | the 400 cases for a missing or bad id, bad quantity and missing product, each leaving the carts unchanged; otherwise the user's cart (created if absent) gets the add, and the response is the live populated cart; validity is preserved |
| CartController.GetCart | server/controllers/cartController.js:56-75 | no cart gives an empty list; otherwise the populated lines whose product exists, each carrying its product |
| CartController.RemoveFromCart | server/controllers/cartController.js:78-105 | 400 on a bad id and 404 with no cart, both leaving the carts unchanged; otherwise every line of the product is removed; validity is preserved |
| CartController.UpdateQuantity | server/controllers/cartController.js:108-145 | 400 on a bad id or quantity below 1, 404 with no cart or no line; otherwise the product's line gets the new quantity; validity is preserved |
| OrderModel.StatusRoundTrip | server/models/orders.js:18 | naming a status and parsing the name gives the status back |
| OrderModel.BuildLines | server/models/orders.js:12-16 | the stored lines correspond one to one, in order, to the given lines |
| OrderModel.Build | server/models/orders.js:3-19 | the save succeeds exactly when the required, min and enum validators pass, and the stored fields are the given ones |
| OrderModel.BuildDefaults | server/models/orders.js:8-11 | missing notes and line notes become "", a missing status becomes pending, and pickup type, region and address stay null |
| OrderModel.BuildRejectsBadLine | server/models/orders.js:13-14 | a line without a product, or with quantity below 1, makes the whole save fail |
| OrderModel.BuildStatus | server/models/orders.js:18 | a status outside the enum fails the save; a valid name is stored as that status |
| OrderController.DraftLines | server/controllers/orderController.js:35-38 | each order line copies only the product id and quantity of its cart line |
| OrderController.Checkout | server/controllers/orderController.js:10-41 | 400 "Cart is empty" for a missing or empty cart, 400 when no line's product exists, otherwise a 201 order with the user, the customer fields, the resolving lines, their total and status completed |
| OrderController.PlaceOrder | server/controllers/orderController.js:6-53 | a failed check changes nothing; a failed save changes nothing and answers 500; a saved order is appended; the cart is deleted only after the save and only when the delete succeeds; validity is preserved |
| OrderController.CheckoutConformsAndResolves | server/controllers/orderController.js:16 | the order built passes the line validators and refers only to existing products |
| OrderController.CheckoutSucceeds | server/controllers/orderController.js:11-19 | a well-formed cart with at least one existing product always checks out |
| OrderController.LinesTotalConcat | server/controllers/orderController.js:26-29 | the total is additive over the lines |
| OrderController.LinesTotalResolving | server/controllers/orderController.js:16-29 | dropping lines of deleted products does not change the total |
| OrderController.TotalExample | server/controllers/orderController.js:26-29 | 2 at 500 plus 1 at 350 totals 1350 |
| OrderController.VisibleOrdersSpec | server/controllers/orderController.js:59-63 | an admin gets every order; anyone else gets exactly their own orders, in stored order |
| ProductController.CreateProduct | server/controllers/productController.js:8-43 | 400 for a missing, malformed or unknown restaurant; 400 when the schema rejects the product; otherwise a 201 product, available, with the uploaded image, stored under a new id; validity is preserved |
| ProductController.AddProductResolves | server/controllers/productController.js:36 | adding a product never breaks an order's product references |
| ProductController.ProductsByRestaurant | server/controllers/productController.js:56-69 | 400 on a malformed id; otherwise exactly the products of that restaurant |
| ProductController.ProductListedOnce | server/controllers/productController.js:64 | a product is listed under its own restaurant and under no other |
| ProductController.UpdateProduct | server/controllers/productController.js:83-110 | a given restaurant must be a valid, existing one; a cast failure gives 400 and a missing product 404; otherwise only the supplied fields and the uploaded image change |
| ProductController.Patched | server/controllers/productController.js:85-100 | each supplied field replaces the stored one and every other field is kept |
| ProductController.EmptyPatchIdentity | server/controllers/productController.js:85-86 | an update with no fields and no file leaves the product unchanged |
| ProductController.DeleteProduct | server/controllers/productController.js:113-134 | 400 on a malformed id, 400 while an order refers to the product, 404 when absent, otherwise the product is removed; validity is preserved |
| ProductController.FindReferencingOrder | server/controllers/productController.js:122 | the scan finds an order exactly when some order has a line for the product, and the order found has such a line |
| ProductController.RemoveUnreferencedResolves | server/controllers/productController.js:121-127 | removing an unreferenced product keeps every order's references resolving |
| CategoryController.Propagate | server/controllers/categoryController.js:80-83 | the same products; the category's products get the flag; others are unchanged; only the flag changes |
| CategoryController.ToggleCategory | server/controllers/categoryController.js:70-90 | 400 on a cast failure, 404 when absent, otherwise the category's flag is negated, pushed down to its products and returned |
| CategoryController.PropagateTwice | server/controllers/categoryController.js:80-83 | a later propagation overrides an earlier one |
| CategoryController.ToggleTwice | server/controllers/categoryController.js:76-83 | toggling twice restores the category and leaves its products with the category's original flag |
| CategoryController.GetCategory | server/controllers/categoryController.js:26-36 | 400 exactly on a cast failure, 404 exactly when absent, otherwise the category |
| CategoryController.PatchedCategory | server/controllers/categoryController.js:41-45 | supplied fields replace the stored ones, the others are kept |
| CategoryController.UpdateCategory | server/controllers/categoryController.js:39-53 | 400, 404, or the patched category stored and returned; products are untouched |
| CategoryController.DeleteCategory | server/controllers/categoryController.js:56-66 | 400, 404, or only the category removed |
| AdminAuth.Split | server/middleware/adminAuth.js:10 | at least one piece, none containing the separator |
| AdminAuth.SplitJoin | server/middleware/adminAuth.js:10 | joining the pieces gives the header back |
| AdminAuth.Token | server/middleware/adminAuth.js:10 | the token of a "Bearer " header has no space |
| AdminAuth.TokenOfBearer | server/middleware/adminAuth.js:6-10 | the token of "Bearer t" is t |
| AdminAuth.TokenStopsAtSpace | server/middleware/adminAuth.js:10 | anything after a second space is not part of the token |
| AdminAuth.AdminGate | server/middleware/adminAuth.js:3-23 | 401 without a bearer header, 401 for a rejected token, 403 for a non-admin; the request passes exactly when the token verifies with role admin, carrying the token's id and role |
| Grouping.GroupBySpec | server/controllers/dashboardController.js:29-35 | `$group` yields distinct keys; a key has a bucket iff some entry has it; each bucket holds that key's count and sum |
| Grouping.AddEntrySummarises | server/controllers/dashboardController.js:29-35 | folding one more document keeps the buckets a summary of the input |
| Grouping.CountMultiplicity | server/controllers/dashboardController.js:60 | a key's count is its multiplicity among the keys |
| Grouping.GroupByCountSum | server/controllers/dashboardController.js:60 | the bucket counts add up to the number of documents |
| SalesPipeline.LineHitsSpec | server/controllers/dashboardController.js:13-22 | the unwound, looked-up lines of an order carry its total, and an order has a line for restaurant r iff it touches r |
| SalesPipeline.OrderPairs | server/controllers/dashboardController.js:23-28 | the first group adds exactly one (order, restaurant) group per restaurant the order touches, however many lines that restaurant serves |
| SalesPipeline.PairsCount | server/controllers/dashboardController.js:23-35 | per restaurant, the group count and sum are the number of orders touching it and their full totals |
| SalesPipeline.JoinSpec | server/controllers/dashboardController.js:36-52 | membership: a stat is listed iff it is built from a bucket whose restaurant exists, with its name, count and sum |
| SalesPipeline.JoinOnePerBucket | server/controllers/dashboardController.js:36-52 | over distinct keys, exactly one stat per bucket whose restaurant exists: output i belongs to a distinct restaurant, carries its bucket's count and sum, and no such bucket is missed |
| SalesPipeline.OrdersByRestaurantSpec | server/controllers/dashboardController.js:12-53 | every output document is some existing, touched restaurant's name, order count and sales, and every such restaurant has its document |
| SalesPipeline.OrdersByRestaurantOnePerRestaurant | server/controllers/dashboardController.js:12-53 | exactly one document per existing, touched restaurant: the documents' restaurants are distinct, document i is its restaurant's name, order count and sales, and none is missed |
| SalesPipeline.DanglingLineIgnored | server/controllers/dashboardController.js:22 | a line whose product is gone changes no restaurant's statistics |
| SalesPipeline.MultiRestaurantOrderExample | server/controllers/dashboardController.js:25-33 | an order with two lines from a and one from b counts once for a, and both receive its full total |
| Dashboard.RolesCounted | server/controllers/dashboardController.js:59-61 | one document per distinct role, holding the number of users with that role |
| Dashboard.RolesListed | server/controllers/dashboardController.js:59-61 | a role is listed iff some user holds it |
| Dashboard.RolesSum | server/controllers/dashboardController.js:59-61 | the role counts add up to the number of users |
| Dashboard.JoinUsersSpec | server/controllers/dashboardController.js:66-81 | membership: a document is listed iff it is some group's count with the name of a user whose id is the group's key |
| Dashboard.JoinUsersShape | server/controllers/dashboardController.js:66-81 | document i belongs to a user of the collection and carries the count of a group keyed by that user's id |
| Dashboard.JoinedUsersMultiplicity | server/controllers/dashboardController.js:66-81 | over distinct keys, a user whose id has a group is joined as often as it occurs among the users, any other user never |
| Dashboard.JoinUsersOnePerMatch | server/controllers/dashboardController.js:66-81 | over distinct keys, one document per group and matching user, with the user's name and that group's count |
| Dashboard.OrdersByUserSpec | server/controllers/dashboardController.js:64-82 | each document is an existing user's name and number of orders, and every such user with orders has one |
| Dashboard.OrdersByUserOnePerUser | server/controllers/dashboardController.js:64-82 | one document per user owning orders (as often as the user occurs in the collection): document i is that user's name and order count; users with no order are absent |
| Dashboard.OnlineStats | server/controllers/dashboardController.js:85 | one entry per user, in order, with that user's id, username, role, total online time and online flag (email and password left out) |
| Dashboard.GetDashboardStats | server/controllers/dashboardController.js:6-99 | 500 exactly when a query fails, never partial results; the counts are the collection sizes; the role counts sum to the user count; one online entry per user |
| Text.TrimIsCore | client/src/components/cart.js:274-278 | trimming leaves a slice of the input that does not start or end with whitespace and removes only whitespace |
| Text.BlankIffAllSpace | client/src/components/cart.js:241 | a string is blank exactly when it is all whitespace |
| Text.TrimIdempotent | client/src/components/cart.js:274-278 | trimming twice trims nothing more |
| Text.Lower | client/src/components/orders.js:77-80 | lower-casing keeps the length and lowers each character |
| Text.Digits | client/src/components/cart.js:246 | the result holds only digits, and every digit of the input occurs in it as often as in the input |
| Text.DigitsIsFilter | client/src/components/cart.js:246 | `replace(/\D/g, "")` is the digit filter of the input: exactly its digits, in their order |
| Text.DigitsNotBlank | client/src/components/cart.js:241-247 | a string with a digit is not blank |
| Text.ContainsIffOccurs | client/src/components/orders.js:83-85 | `includes` holds exactly when the needle occurs at some position |
| ClientCart.Total | client/src/components/cart.js:161-166 | with no tax and no delivery fee the total equals the subtotal |
| ClientCart.SubtotalConcat | client/src/components/cart.js:154-158 | the subtotal is additive over the items |
| ClientCart.SubtotalOfPopulated | client/src/components/cart.js:154-158 | the subtotal of a fetched cart equals the server's total of its lines |
| ClientCart.ShownTotalIsOrderTotal | client/src/components/cart.js:166 | the total shown for the fetched cart is the total of the order placed from it |
| ClientCart.PreviewError | client/src/components/cart.js:239-264 | the preview opens iff name and phone are not blank, the phone has 10 digits, delivery has a region and an address, and the cart is not empty; otherwise the first failing check is reported: name/phone, then digits, then region, then address, then empty cart |
| ClientCart.PhoneCheckSubsumes | client/src/components/cart.js:241-247 | a phone with ten digits never fails the blank check |
| ClientCart.PayloadItems | client/src/components/cart.js:277 | each item is sent as its product id and quantity only |
| ClientCart.MakePayloadSpec | client/src/components/cart.js:273-286 | pickup type is sent only for pickup and region only for delivery; the text fields are sent trimmed; totals equal the subtotal |
| ClientCart.SetItemQuantity | client/src/components/cart.js:187-189 | only the product's items get the new quantity |
| ClientCart.WithoutItemSpec | client/src/components/cart.js:210 | removal drops exactly the product's items, keeping the rest in order |
| ClientCart.SetItemQuantitySubtotal | client/src/components/cart.js:154-158 | with one item for the product, the subtotal changes by price times the change in quantity |
| ClientCart.CartPage.constructor | client/src/components/cart.js:94-124 | the initial state: empty cart and form, pickup and dine-in, dialogs closed |
| ClientCart.CartPage.UpdateQuantity | client/src/components/cart.js:169-197 | only the cart, the removal confirmation, loading and the snack may change; no token: the error snack only; below 1: no request, the removal confirmation opens for the product; else the new quantity is sent, set on success, and loading ends false |
| ClientCart.CartPage.RemoveFromCart | client/src/components/cart.js:200-219 | only the cart, the confirmation dialog, loading and the snack may change; no token: the error snack only; else the removal is sent, the items are dropped on success, and the confirmation closes |
| ClientCart.CartPage.OpenOrderPreview | client/src/components/cart.js:239-264 | the preview opens exactly when the checks pass; otherwise the first failure is shown |
| ClientCart.CartPage.ConfirmPlaceOrder | client/src/components/cart.js:266-305 | only the cart, the preview, loading and the snack may change; no token: error and the preview closes; else the payload is posted, and on success the local cart is empty and the preview closed |
| ClientCart.CartPage.ClearCart | client/src/components/cart.js:755-769 | only the cart, the clear dialog, loading and the snack may change; the cart delete is sent; on success the local cart is empty; the dialog closes either way |
| ClientOrders.LowerOrEmpty | client/src/components/orders.js:77-79 | a missing field counts as "", a present one is lower-cased |
| ClientOrders.FilteredOrdersSpec | client/src/components/orders.js:76-87 | an order is listed iff the lower-cased search occurs in its username, customer name or phone; the list is an order-preserving subsequence |
| ClientOrders.EmptySearchKeepsAll | client/src/components/orders.js:76-87 | an empty search keeps every order |
| ClientOrders.SearchIgnoresCase | client/src/components/orders.js:80 | the search ignores the case of what is typed |
| ClientOrders.Slice | client/src/components/orders.js:128 | `slice` clamps both ends and returns the rows from start on |
| ClientOrders.PageRows | client/src/components/orders.js:127-128 | at most rowsPerPage rows, row i being list row page*rowsPerPage+i |
| ClientOrders.PagesCover | client/src/components/orders.js:127-128 | every list row i appears on page i / k as row i % k |
| ClientOrders.PagesTile | client/src/components/orders.js:127-128 | the rows before page p followed by page p are the rows before page p + 1: pages tile the list in order without overlap or gap |
| ClientOrders.StoredStatusesShowError | client/src/components/orders.js:139-145 | every status the order schema stores is shown in the error colour |
| ClientOrders.OrdersPage.constructor | client/src/components/orders.js:32-34 | empty search, first page, five rows per page |
| ClientOrders.OrdersPage.Rows | client/src/components/orders.js:127-128 | the rows shown are at most rowsPerPage consecutive rows of the filtered list |
| ClientOrders.OrdersPage.HandleChangePage | client/src/components/orders.js:66-68 | the page becomes the chosen one |
| ClientOrders.OrdersPage.HandleChangeRowsPerPage | client/src/components/orders.js:70-73 | the page size changes and the page resets to 0, showing the first rows of the list |
| ClientRestaurant.NameTakenSpec | client/src/components/resturant.js:73-75 | a name is taken iff a restaurant other than the edited one has it, ignoring case and the spaces around the typed name |
| ClientRestaurant.EditedNeverClashesWithItself | client/src/components/resturant.js:73-75 | the edited restaurant never clashes with itself |
| ClientRestaurant.NewNameClash | client/src/components/resturant.js:73-76 | a new restaurant matching any listed name in any case is refused |
| ClientRestaurant.SubmitError | client/src/components/resturant.js:66-77 | no token is reported first; the save goes ahead iff all four fields are filled, the name is free and, on create, an image is chosen; a failure reports the first failing check: no token, then an empty field, then a taken name, then a missing image |
| ClientRestaurant.OrEmpty | client/src/components/resturant.js:111-114 | a missing field loads as "" |
| ClientRestaurant.RestaurantPage.HandleEdit | client/src/components/resturant.js:109-117 | the form is loaded with the restaurant's fields and its id is remembered |
| ClientRestaurant.RestaurantPage.HandleSubmit | client/src/components/resturant.js:66-107 | a failed check only reports; otherwise a PUT for the edited restaurant or a POST for a new one is sent; on success the form and image reset, the edited id clears and "Restaurant updated successfully!" or "Restaurant added successfully!" is shown; loading is untouched by a failed check and false after a send |

## Left out

- The Express wiring: `server.js`, the route files and the user authentication middleware are not part of this model. The handlers are modelled as the controllers define them, whichever routes reach them.
- The user and restaurant controllers are context, not core: registration, login, online time and restaurant CRUD are not modelled.
- `populate` of a product's category and restaurant: a product is returned with ids, not documents, because nothing in the core depends on the populated fields.
- ObjectId casting is the parameter `isValid`; the 400 message of a cast error, and that of a product schema validation error (`createProduct`'s `err.message`, which Mongoose builds as "Product validation failed: <path>: …"), are fixed strings in place of Mongoose's full messages.
- Store failures are modelled only for saving and deleting in `placeOrder` and for the dashboard queries. A failing read or write in any other handler (the catch-all 500 or 400) is not modelled.
- Concurrency: two requests on the same cart or order collection interleaving is not modelled; each handler is one atomic step.
- Numbers: prices and totals are integers (cents). Floating-point sums, `parseFloat`, `toFixed(2)` and the currency formatting are not modelled. Neither are non-integer quantities sent by a client.
- Text: only ASCII letters are case-folded and only ASCII whitespace is trimmed; full Unicode case mapping and whitespace are not modelled.
- Uploads: multer's file naming is not modelled; an upload is its file name.
- `createCategory`, `getAllCategories`, `getAllProducts` and `getProductById` return what the store holds and carry no logic to prove.
- The client's per-line note (`/api/cart/:id/note`) and the whole-cart delete (`DELETE /api/cart`) call server endpoints that no controller in the model defines. Only the client side of the clear-cart call is modelled.
- `placeOrder` does not check that an order's products come from a single restaurant: that check is commented out at server/controllers/orderController.js:21-23. The model follows the code.
- `getOrders` populates the order's `user` as well as its products; the model keeps the owner as an id, because which orders are visible depends only on that id.
- `getOrders` applies no sort, so orders are listed in stored order. The model follows the code.
- `placeOrder` ignores the fulfillment, region, address and notes that the client posts, so they stay at their schema defaults. The model follows the code.
- The order of `$group` output documents is unspecified in MongoDB. The model produces them in first-seen order, and every property is stated independently of that order.
- Mongoose drops fields of an update that are `undefined`. The model represents this by `None` in the update records.
- The client's fetch of the cart, of the orders and of the restaurant list is not modelled: the lists start as given. Snackbar closing and dialog toggles that only flip a flag are not modelled either.
- The restaurant page reloads its list after a save without awaiting it; `ClientRestaurant.RestaurantPage.HandleSubmit` leaves the list as it was.
- ClientCart.CartPage.ConfirmPlaceOrder: an item whose product is null makes the payload construction throw before the request. Items fetched from the cart always carry their product, so the model maps such an item to an empty id instead.
