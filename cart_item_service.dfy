/** The cart item service: adding a product to the calling account's cart
    merges it into the account's existing line for that product, or opens a
    new line. */
module CartItemService {
  import opened Common
  import opened Catalog

  /** At most one cart item per (product, account) pair, which is what
      `findByProductIdAndAccountId` relies on when it returns one item. */
  ghost predicate PairsUnique(cart: map<string, CartItem>)
  {
    forall i, j :: i in cart && j in cart && i != j ==>
      cart[i].productId != cart[j].productId || cart[i].accountId != cart[j].accountId
  }

  predicate Holds(item: CartItem, productId: string, accountId: string)
  {
    item.productId == productId && item.accountId == accountId
  }

  /** The cart after adding `quantity` of a product for an account: the
      pair's item grows by `quantity`, or a new item `newId` holds it. */
  ghost function Merged(cart: map<string, CartItem>, newId: string, productId: string, accountId: string, quantity: int)
    : map<string, CartItem>
  {
    if exists id :: id in cart && Holds(cart[id], productId, accountId) then
      var id :| id in cart && Holds(cart[id], productId, accountId);
      cart[id := cart[id].(quantity := cart[id].quantity + quantity)]
    else
      cart[newId := CartItem(productId, accountId, quantity)]
  }

  /** The quantity an account holds of a product in a cart without
      duplicate pairs: the quantity of the pair's item, or 0. */
  ghost function Held(cart: map<string, CartItem>, productId: string, accountId: string): int
  {
    if exists id :: id in cart && Holds(cart[id], productId, accountId) then
      var id :| id in cart && Holds(cart[id], productId, accountId);
      cart[id].quantity
    else 0
  }

  /** Adding keeps at most one item per pair, leaves exactly one item for
      the pair holding the old quantity plus `quantity`, and changes no
      other pair's item. */
  lemma MergedEffects(cart: map<string, CartItem>, newId: string, productId: string, accountId: string, quantity: int)
    requires PairsUnique(cart) && newId !in cart
    ensures var r := Merged(cart, newId, productId, accountId, quantity);
      && PairsUnique(r)
      && Held(r, productId, accountId) == Held(cart, productId, accountId) + quantity
      && (exists id :: id in r && Holds(r[id], productId, accountId))
      && (forall id :: id in cart && !Holds(cart[id], productId, accountId) ==> id in r && r[id] == cart[id])
      && (forall id :: id in r && !Holds(r[id], productId, accountId) ==> id in cart)
  {
    var r := Merged(cart, newId, productId, accountId, quantity);
    if exists id :: id in cart && Holds(cart[id], productId, accountId) {
      var id :| id in cart && Holds(cart[id], productId, accountId);
      assert r == cart[id := cart[id].(quantity := cart[id].quantity + quantity)];
      assert id in r && Holds(r[id], productId, accountId);
      HeldIs(r, id, productId, accountId);
      HeldIs(cart, id, productId, accountId);
    } else {
      assert r == cart[newId := CartItem(productId, accountId, quantity)];
      assert newId in r && Holds(r[newId], productId, accountId);
      HeldIs(r, newId, productId, accountId);
    }
  }

  /** In a cart without duplicate pairs, the pair's item gives its
      quantity. */
  lemma HeldIs(cart: map<string, CartItem>, id: string, productId: string, accountId: string)
    requires PairsUnique(cart) && id in cart && Holds(cart[id], productId, accountId)
    ensures Held(cart, productId, accountId) == cart[id].quantity
  {
  }

  /** The cart item service over the product and cart item repositories. */
  class CartItemService {
    var products: map<string, Product>
    var cartItems: map<string, CartItem>

    ghost predicate Valid()
      reads this
    {
      PairsUnique(cartItems)
    }

    constructor(products: map<string, Product>, cartItems: map<string, CartItem>)
      requires PairsUnique(cartItems)
      ensures Valid() && this.products == products && this.cartItems == cartItems
    {
      this.products := products;
      this.cartItems := cartItems;
    }

    /** `addCartItem`; `account` is the calling account's id as the
        security context yields it, and `newId` the id a new item gets. */
    method AddCartItem(newId: string, productId: string, quantity: int, account: Result<string>)
      returns (r: Result<CartItem>)
      requires Valid() && newId !in cartItems
      modifies this
      ensures Valid() && products == old(products)
      ensures productId !in products ==> r == Err("product-e-01") && cartItems == old(cartItems)
      ensures productId in products && account.Err? ==> r == Err(account.code) && cartItems == old(cartItems)
      ensures productId in products && account.Ok? ==>
        && cartItems == Merged(old(cartItems), newId, productId, account.value, quantity)
        && r.Ok? && Holds(r.value, productId, account.value)
        && r.value.quantity == Held(old(cartItems), productId, account.value) + quantity
    {
      if productId !in products {
        return Err("product-e-01");
      }
      if account.Err? {
        return Err(account.code);
      }
      var accountId := account.value;
      ghost var before := cartItems;
      MergedEffects(before, newId, productId, accountId, quantity);
      if exists id :: id in cartItems && Holds(cartItems[id], productId, accountId) {
        var id :| id in cartItems && Holds(cartItems[id], productId, accountId);
        HeldIs(before, id, productId, accountId);
        var cartItem := cartItems[id];
        cartItem := cartItem.(quantity := cartItem.quantity + quantity);
        cartItems := cartItems[id := cartItem];
        r := Ok(cartItem);
      } else {
        var cartItem := CartItem(productId, accountId, quantity);
        cartItems := cartItems[newId := cartItem];
        r := Ok(cartItem);
      }
    }
  }
}
