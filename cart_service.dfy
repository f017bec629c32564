/** The cart service: a store of carts keyed by owner email, checked against
    a read-only product catalog. Each operation loads the owner's cart,
    walks its ladder of checks, edits the loaded items and writes the cart
    back; reading the store is `Cart.findOne`, writing it is `save`. */
module CartService {
  import opened CartModel

  /** How creating a missing cart goes: `Cart.create` may throw, or it may
      store the empty cart and the `save` right after it may throw. */
  datatype CreateOutcome = Created | CreateFailed | SaveAfterCreateFailed

  class Store {
    /** The persisted carts, by owner email. */
    var carts: map<Email, seq<Item>>
    /** The product ids the catalog resolves. */
    const catalog: set<ProductId>

    /** Every stored cart holds each product at most once. */
    ghost predicate Valid()
      reads this
    {
      EveryCartDistinct(carts)
    }

    /** Every stored item has a positive quantity. */
    ghost predicate AllQuantitiesPositive()
      reads this
    {
      EveryQuantityPositive(carts)
    }

    constructor (catalog: set<ProductId>)
      ensures this.catalog == catalog && carts == map[]
      ensures Valid() && AllQuantitiesPositive()
    {
      this.catalog := catalog;
      carts := map[];
    }

    /** The owner's cart exactly as stored, or 404 when there is none. */
    method GetCartByUser(user: User) returns (r: Result<Cart>)
      ensures user.email in carts <==> r.Ok?
      ensures r.Ok? ==> r.value == Cart(user.email, carts[user.email])
      ensures r.Err? ==> r.error == NoCart && r.error.status == 404
    {
      if user.email !in carts {
        return Err(NoCart);
      }
      r := Ok(Cart(user.email, carts[user.email]));
    }

    /** Creates the owner's cart if missing (how that goes is `create`), then rejects a product already in the cart, then a
        product the catalog does not hold, and otherwise pushes the item.
        An empty cart created on the way stays stored when a later check fails. */
    method AddProductToCart(user: User, productId: ProductId, quantity: int, create: CreateOutcome)
      returns (r: Result<Cart>)
      requires Valid()
      modifies this
      ensures Valid()
      ensures old(AllQuantitiesPositive()) && quantity > 0 ==> AllQuantitiesPositive()
      ensures var e := user.email;
        var before := if e in old(carts) then old(carts)[e] else [];
        var after := before + [Item(productId, quantity)];
        if e !in old(carts) && create == CreateFailed then
          r == Err(CartNotCreated) && carts == old(carts)
        else if e !in old(carts) && create == SaveAfterCreateFailed then
          r == Err(CartNotCreated) && carts == old(carts)[e := []]
        else if Contains(before, productId) then
          r == Err(AlreadyInCart) && carts == old(carts)[e := before]
        else if productId !in catalog then
          r == Err(NotInCatalog) && carts == old(carts)[e := before]
        else
          r == Ok(Cart(e, after)) && carts == old(carts)[e := after]
    {
      var e := user.email;
      if e !in carts {
        if create == CreateFailed {
          return Err(CartNotCreated);
        }
        PutKeepsInvariants(carts, e, []);
        carts := carts[e := []];
        if create == SaveAfterCreateFailed {
          return Err(CartNotCreated);
        }
      }
      var cartItems := carts[e];
      if Contains(cartItems, productId) {
        return Err(AlreadyInCart);
      }
      if productId !in catalog {
        return Err(NotInCatalog);
      }
      AppendKeepsDistinct(cartItems, productId, quantity);
      PutKeepsInvariants(carts, e, cartItems + [Item(productId, quantity)]);
      cartItems := cartItems + [Item(productId, quantity)];
      carts := carts[e := cartItems];
      r := Ok(Cart(e, cartItems));
    }

    /** Fails when the owner has no cart, then when the catalog does not hold
        the product, then when the cart does not; otherwise overwrites the
        quantity of the first matching item. Never creates a cart. */
    method UpdateProductInCart(user: User, productId: ProductId, quantity: int)
      returns (r: Result<Cart>)
      requires Valid()
      modifies this
      ensures Valid()
      ensures old(AllQuantitiesPositive()) && quantity > 0 ==> AllQuantitiesPositive()
      ensures r.Err? ==> carts == old(carts)
      ensures var e := user.email;
        if e !in old(carts) then
          r == Err(NoCartForUpdate)
        else if productId !in catalog then
          r == Err(NotInCatalog)
        else if !Contains(old(carts)[e], productId) then
          r == Err(NotInCart)
        else
          var after := WithQuantity(old(carts)[e], FindIndex(old(carts)[e], productId), quantity);
          r == Ok(Cart(e, after)) && carts == old(carts)[e := after]
      ensures r.Ok? ==> Contains(carts[user.email], productId)
      ensures r.Ok? ==> forall i | 0 <= i < |carts[user.email]| && carts[user.email][i].product == productId ::
        carts[user.email][i].quantity == quantity
    {
      var e := user.email;
      if e !in carts {
        return Err(NoCartForUpdate);
      }
      if productId !in catalog {
        return Err(NotInCatalog);
      }
      var cartItems := carts[e];
      var k := FindIndex(cartItems, productId);
      if k == -1 {
        return Err(NotInCart);
      }
      WithQuantityKeepsShape(cartItems, k, quantity);
      UpdatedProductHasNewQuantity(cartItems, productId, quantity);
      PutKeepsInvariants(carts, e, WithQuantity(cartItems, k, quantity));
      cartItems := cartItems[k := cartItems[k].(quantity := quantity)];
      carts := carts[e := cartItems];
      r := Ok(Cart(e, cartItems));
    }

    /** Fails when the owner has no cart, then when the cart does not hold
        the product (the catalog is not consulted); otherwise splices out the
        first matching item, after which the product is absent. */
    method DeleteProductFromCart(user: User, productId: ProductId) returns (r: Result<()>)
      requires Valid()
      modifies this
      ensures Valid()
      ensures old(AllQuantitiesPositive()) ==> AllQuantitiesPositive()
      ensures r.Err? ==> carts == old(carts)
      ensures var e := user.email;
        if e !in old(carts) then
          r == Err(NoCartForDelete)
        else if !Contains(old(carts)[e], productId) then
          r == Err(NotInCart)
        else
          var after := RemoveAt(old(carts)[e], FindIndex(old(carts)[e], productId));
          r == Ok(()) && carts == old(carts)[e := after]
      ensures r.Ok? ==> |carts[user.email]| == |old(carts)[user.email]| - 1
      ensures r.Ok? ==> !Contains(carts[user.email], productId)
    {
      var e := user.email;
      if e !in carts {
        return Err(NoCartForDelete);
      }
      var cartItems := carts[e];
      var k := FindIndex(cartItems, productId);
      if k == -1 {
        return Err(NotInCart);
      }
      RemoveAtKeepsOrder(cartItems, k);
      RemoveAtKeepsDistinct(cartItems, k);
      PutKeepsInvariants(carts, e, RemoveAt(cartItems, k));
      cartItems := RemoveAt(cartItems, k);
      carts := carts[e := cartItems];
      r := Ok(());
    }
  }

  /** A session for one user: add, add again, update, delete, delete again.
      Each step's outcome follows from the contracts above alone. */
  method ExampleSession()
  {
    var store := new Store({"p1"});
    var a := User("a@x.com");
    var got := store.GetCartByUser(a);
    assert got == Err(NoCart);

    var r := store.AddProductToCart(a, "p1", 2, Created);
    assert [] + [Item("p1", 2)] == [Item("p1", 2)];
    assert r == Ok(Cart("a@x.com", [Item("p1", 2)]));

    r := store.AddProductToCart(a, "p1", 3, Created);
    assert r == Err(AlreadyInCart);
    assert store.carts["a@x.com"] == [Item("p1", 2)];

    assert FindIndex([Item("p1", 2)], "p1") == 0;
    assert WithQuantity([Item("p1", 2)], 0, 5) == [Item("p1", 5)];
    r := store.UpdateProductInCart(a, "p1", 5);
    assert r == Ok(Cart("a@x.com", [Item("p1", 5)]));

    var d := store.DeleteProductFromCart(a, "p1");
    assert d == Ok(()) && store.carts["a@x.com"] == [];

    d := store.DeleteProductFromCart(a, "p1");
    assert d == Err(NotInCart);

    got := store.GetCartByUser(a);
    assert got == Ok(Cart("a@x.com", []));
  }
}
