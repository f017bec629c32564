# Cart service model

A Dafny model of the cart service of the QKart e-commerce backend
(`src/services/cart.service.js`). Each registered user, keyed by email, owns
at most one cart. A cart is an ordered sequence of items, and each item is a
product id with a quantity. The service has four operations:

- read a cart;
- add a product, creating the cart first if it is missing;
- overwrite the quantity of a product already in the cart;
- remove a product from the cart.

Before it changes anything, each operation goes through a fixed ladder of
checks. Each failed check raises its own error: an HTTP status and a literal
message.

The model has two modules:

- `CartModel` (`cart_model.dfy`) holds the values. These are items, carts,
  users and the service's errors. It also holds the two membership tests the
  service runs over a cart's items: `some` becomes `Contains` and `findIndex`
  becomes `FindIndex`. Each is proved against a quantified reference
  definition. The module also has the cart invariant `Distinct` (no product
  twice) and the effect of the three in-place edits: push, index assignment
  (`WithQuantity`) and splice (`RemoveAt`). Lemmas prove that each edit keeps
  the invariant and changes nothing else.
- `CartService` (`cart_service.dfy`) holds the class `Store`. Its field
  `carts: map<Email, seq<Item>>` is the persisted collection of carts. Its
  constant `catalog: set<ProductId>` is the set of product ids the catalog
  resolves. There is one method per operation. Each method loads the owner's
  cart, checks, edits the loaded items and writes the cart back. Its
  `ensures` states the whole error ladder and the exact new store. Every
  method keeps `Valid()`, which says every stored cart has distinct products.
  `ExampleSession` is a client. From the contracts alone it derives the
  outcome of each step of add, add again, update, delete, delete again.

Notes on the code:

- `getCartByUser` raises 404 when the user has no cart
  (src/services/cart.service.js:22). `updateProductInCart` and
  `deleteProductFromCart` raise 400 in the same situation (:110, :147).
- `ErrorKind` (`NotFound`, `Conflict`, `InvalidReference`, `Internal`) is the
  model's own classification of the errors. The source's errors carry only a
  status and a message.
- The code compares ids with loose `==` (:66, :117, :149). The model compares
  product ids with exact equality.

## Model

| member | source | states |
|---|---|---|
| `CartModel.Contains` | src/services/cart.service.js:66 | true exactly when some item of the cart references the product |
| `CartModel.FindIndex` | src/services/cart.service.js:117-118 | returns -1 exactly when the product is absent; otherwise returns the index of the first item referencing it |
| `CartModel.WithQuantity` | src/services/cart.service.js:122 | the copy-based form of the in-place `cartItems[product].quantity = quantity`: same length, and the item at the index keeps its product and takes the new quantity; `WithQuantityKeepsShape` and `UpdatedProductHasNewQuantity` state the rest of its properties |
| `CartModel.RemoveAt` | src/services/cart.service.js:153 | the copy-based form of the in-place `splice(product, 1)`: one shorter, and the item after the index moves into its place; `RemoveAtKeepsOrder` and `RemoveAtKeepsDistinct` state the rest of its properties |
| `CartModel.AppendKeepsDistinct` | src/services/cart.service.js:66-78 | pushing a product that is not in the cart keeps products distinct, grows the cart by exactly one, leaves earlier items untouched, and puts the new product at the end with the given quantity (so a second add of it is a duplicate) |
| `CartModel.WithQuantityKeepsShape` | src/services/cart.service.js:122 | overwriting one quantity keeps the length, order and products; leaves every other item unchanged; keeps distinctness; keeps quantities positive when the new one is positive |
| `CartModel.UpdatedProductHasNewQuantity` | src/services/cart.service.js:117-122 | in a cart with distinct products, after the update the item found by findIndex still references the product, is the only one that does, and holds the new quantity |
| `CartModel.RemoveAtKeepsOrder` | src/services/cart.service.js:153 | splicing out one index shortens the cart by one, keeps the other items in relative order, and removes exactly that item from the multiset |
| `CartModel.RemoveAtKeepsDistinct` | src/services/cart.service.js:149-153 | splicing keeps products distinct and quantities positive; in a cart with distinct products, the removed product is then absent |
| `CartService.Store.GetCartByUser` | src/services/cart.service.js:19-25 | succeeds exactly when the email has a cart and returns it unchanged; otherwise fails with 404 "User does not have a cart"; never changes the store |
| `CartService.Store.AddProductToCart` | src/services/cart.service.js:51-81 | a throwing `Cart.create` gives 500 "Cart Not Created Something Went Wrong!!" and no change; a throwing `save` right after a successful create gives the same 500 with the empty cart stored; otherwise the empty cart stays stored; a duplicate gives 400 "Product already in cart…" (checked before the catalog); an unknown product gives 400 "Product doesn't exist in database"; otherwise the item is appended and the new cart returned; products stay distinct |
| `CartService.Store.UpdateProductInCart` | src/services/cart.service.js:107-125 | in this order: no cart gives 400 "User does not have a cart. Use POST…", an unknown product gives 400 "Product doesn't exist in database", a product not in the cart gives 400 "Product not in cart"; every failure leaves the store unchanged and creates no cart; otherwise the quantity of the first match is overwritten, the product is still in the cart, and every item referencing it holds the new quantity; products stay distinct |
| `CartService.Store.DeleteProductFromCart` | src/services/cart.service.js:144-155 | no cart gives 400 "User does not have a cart"; an absent product gives 400 "Product not in cart" (the catalog is not consulted); failures change nothing; otherwise the first match is spliced out, the cart shrinks by one and the product is no longer present |

## Left out

- Persistence and the catalog are not modelled as I/O. `Cart.findOne`, `Cart.create`, `save`, `Product.findById` and `Product.findOne` become reads and writes of `carts` and membership in `catalog`.
- `CartService.Store.AddProductToCart` takes the outcome of creating a missing cart as an input, `create`. It distinguishes a throwing `Cart.create` from a throwing `save` just after it. Failures of the final `save` on every path are not modelled.
- Concurrent requests on one user's cart are not modelled. The model is sequential, so the lost update from read-modify-write does not arise.
- The pushed item holds the whole product record in the source. The model keeps only the product id, because price, name and other fields are never interpreted.
- Quantities are not validated by the service. The model proves only that positive quantities stay positive when the caller passes a positive quantity.
- The `console.log` at src/services/cart.service.js:121 is not modelled, and neither are the internals of the `ApiError` class and the `http-status` constants. Statuses are plain integers.
- `src/services/user.service.js` and `src/services/product.service.js` are not part of this model. They only pass through to the database.
