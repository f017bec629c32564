/** Values manipulated by the cart service: cart items, carts, the errors the
    service raises, the two membership tests it runs over a cart's items
    (`Array.prototype.some` and `Array.prototype.findIndex`), and the three
    in-place edits it applies to them (push, index assignment, splice). */
module CartModel {

  /** A user's email: the key under which the user's cart is stored. */
  type Email = string

  /** A product identifier, compared by exact equality. */
  type ProductId = string

  /** One line of a cart: a reference to a catalog product and its quantity. */
  datatype Item = Item(product: ProductId, quantity: int)

  /** The caller's identity; only its email is used by the cart service. */
  datatype User = User(email: Email)

  /** A cart document: its owner's email and its ordered items. */
  datatype Cart = Cart(email: Email, cartItems: seq<Item>)

  /** The model's own classification of the service's errors; the source's
      errors carry only a status and a message. */
  datatype ErrorKind = NotFound | Conflict | InvalidReference | Internal

  /** An error raised by the service: its kind, HTTP status and literal message. */
  datatype ApiError = ApiError(kind: ErrorKind, status: int, message: string)

  datatype Result<T> = Ok(value: T) | Err(error: ApiError)

  const BAD_REQUEST := 400
  const NOT_FOUND := 404
  const INTERNAL_SERVER_ERROR := 500

  /** Reading a cart that does not exist. */
  const NoCart := ApiError(NotFound, NOT_FOUND, "User does not have a cart")

  /** Creating a missing cart failed in the store. */
  const CartNotCreated := ApiError(Internal, INTERNAL_SERVER_ERROR, "Cart Not Created Something Went Wrong!!")

  /** Adding a product the cart already holds. */
  const AlreadyInCart := ApiError(Conflict, BAD_REQUEST,
    "Product already in cart. Use the cart sidebar to update or remove product from cart")

  /** The product id does not resolve in the catalog. */
  const NotInCatalog := ApiError(InvalidReference, BAD_REQUEST, "Product doesn't exist in database")

  /** Updating the cart of a user who has none. */
  const NoCartForUpdate := ApiError(NotFound, BAD_REQUEST,
    "User does not have a cart. Use POST to create cart and add a product")

  /** Deleting from the cart of a user who has none (a 400, unlike the read path). */
  const NoCartForDelete := ApiError(NotFound, BAD_REQUEST, "User does not have a cart")

  /** Updating or deleting a product the cart does not hold. */
  const NotInCart := ApiError(InvalidReference, BAD_REQUEST, "Product not in cart")

  /** `items.some(item => item.product._id == pid)`, scanning from the front. */
  function Contains(items: seq<Item>, pid: ProductId): (r: bool)
    ensures r <==> exists i :: 0 <= i < |items| && items[i].product == pid
  {
    if items == [] then false
    else if items[0].product == pid then true
    else
      var rest := Contains(items[1..], pid);
      assert forall i :: 0 < i < |items| ==> items[i] == items[1..][i - 1];
      rest
  }

  /** `items.findIndex(i => i.product._id == pid)`: the first matching index, or -1. */
  function FindIndex(items: seq<Item>, pid: ProductId): (r: int)
    ensures -1 <= r < |items|
    ensures r == -1 <==> !Contains(items, pid)
    ensures 0 <= r ==> items[r].product == pid
    ensures forall j :: 0 <= j < r ==> items[j].product != pid
  {
    if items == [] then -1
    else if items[0].product == pid then 0
    else
      var k := FindIndex(items[1..], pid);
      assert forall j :: 0 < j < |items| ==> items[j] == items[1..][j - 1];
      if k == -1 then -1 else k + 1
  }

  /** The cart invariant: no product appears twice among a cart's items. */
  predicate Distinct(items: seq<Item>)
  {
    forall i, j :: 0 <= i < j < |items| ==> items[i].product != items[j].product
  }

  /** Every item has a positive quantity. */
  predicate QuantitiesPositive(items: seq<Item>)
  {
    forall i :: 0 <= i < |items| ==> items[i].quantity > 0
  }

  /** The invariant over a whole store of carts keyed by email. */
  predicate EveryCartDistinct(carts: map<Email, seq<Item>>)
  {
    forall e | e in carts :: Distinct(carts[e])
  }

  predicate EveryQuantityPositive(carts: map<Email, seq<Item>>)
  {
    forall e | e in carts :: QuantitiesPositive(carts[e])
  }

  /** Saving a cart that keeps an invariant keeps it for the whole store. */
  lemma PutKeepsInvariants(carts: map<Email, seq<Item>>, e: Email, items: seq<Item>)
    requires EveryCartDistinct(carts) && Distinct(items)
    ensures EveryCartDistinct(carts[e := items])
    ensures EveryQuantityPositive(carts) && QuantitiesPositive(items) ==> EveryQuantityPositive(carts[e := items])
  {
  }

  /** `items[k].quantity = q` applied to a copy of the items. */
  function WithQuantity(items: seq<Item>, k: nat, q: int): (r: seq<Item>)
    requires k < |items|
    ensures |r| == |items|
    ensures r[k].product == items[k].product && r[k].quantity == q
  {
    items[k := items[k].(quantity := q)]
  }

  /** `items.splice(k, 1)` applied to a copy of the items. */
  function RemoveAt(items: seq<Item>, k: nat): (r: seq<Item>)
    requires k < |items|
    ensures |r| == |items| - 1
    ensures k < |r| ==> r[k] == items[k + 1]
  {
    items[..k] + items[k + 1..]
  }

  /** Appending an item for a product the cart does not hold keeps the
      products distinct, keeps the earlier items in place, and makes the
      product present (so a second add of it is a conflict). */
  lemma AppendKeepsDistinct(items: seq<Item>, pid: ProductId, q: int)
    requires Distinct(items) && !Contains(items, pid)
    ensures var r := items + [Item(pid, q)];
      && Distinct(r)
      && |r| == |items| + 1
      && r[..|items|] == items
      && FindIndex(r, pid) == |items| && r[|items|].quantity == q
      && (QuantitiesPositive(items) && q > 0 ==> QuantitiesPositive(r))
  {
  }

  /** Overwriting one item's quantity changes nothing else: same length,
      same products in the same order, the other quantities untouched, and
      both invariants kept. */
  lemma WithQuantityKeepsShape(items: seq<Item>, k: nat, q: int)
    requires k < |items|
    ensures var r := WithQuantity(items, k, q);
      && |r| == |items|
      && (forall i :: 0 <= i < |r| ==> r[i].product == items[i].product)
      && (forall i :: 0 <= i < |r| && i != k ==> r[i] == items[i])
      && r[k].quantity == q
      && (Distinct(items) ==> Distinct(r))
      && (QuantitiesPositive(items) && q > 0 ==> QuantitiesPositive(r))
  {
  }

  /** Under the invariant, the first match found by FindIndex is the only one:
      after the update exactly one item holds the product, with the new quantity. */
  lemma UpdatedProductHasNewQuantity(items: seq<Item>, pid: ProductId, q: int)
    requires Distinct(items) && Contains(items, pid)
    ensures var k := FindIndex(items, pid);
      0 <= k && WithQuantity(items, k, q)[k].product == pid
      && forall i :: 0 <= i < |items| && WithQuantity(items, k, q)[i].product == pid ==>
        i == k && WithQuantity(items, k, q)[i].quantity == q
  {
  }

  /** Splicing out index k shortens the items by one and keeps every other
      item in its relative order. */
  lemma RemoveAtKeepsOrder(items: seq<Item>, k: nat)
    requires k < |items|
    ensures var r := RemoveAt(items, k);
      && |r| == |items| - 1
      && (forall i :: 0 <= i < k ==> r[i] == items[i])
      && (forall i :: k <= i < |r| ==> r[i] == items[i + 1])
      && multiset(r) + multiset{items[k]} == multiset(items)
  {
    var r := RemoveAt(items, k);
    assert items == items[..k] + [items[k]] + items[k + 1..];
  }

  /** Splicing out one item keeps the products distinct and, under the
      invariant, leaves the removed product absent, so a second delete of it
      finds nothing. */
  lemma RemoveAtKeepsDistinct(items: seq<Item>, k: nat)
    requires k < |items| && Distinct(items)
    ensures Distinct(RemoveAt(items, k))
    ensures !Contains(RemoveAt(items, k), items[k].product)
    ensures QuantitiesPositive(items) ==> QuantitiesPositive(RemoveAt(items, k))
  {
  }
}
