/**
 * The marketplace application state (src/contexts/AppContext.tsx): the
 * catalog types and the shopping cart, a list of items keyed by product id.
 * Each cart operation replaces the cart with a pure function of the old one.
 */
module AppContext {
  import opened Wrappers
  import opened SeqUtil

  /** A catalog product. Prices are whole rupees; `distance` is only compared, never computed with. */
  datatype Product = Product(
    id: string,
    name: string,
    price: int,
    image: string,
    seller: string,
    category: string,
    distance: real,
    tags: seq<string>,
    description: string)

  /** A cart line: a product together with how many of it are in the cart. */
  datatype CartItem = CartItem(product: Product, quantity: int) {
    function Id(): string { product.id }
  }

  datatype OrderStatus = Pending | Confirmed | Shipped | Delivered

  /** A seller's order; `date` is a timestamp in milliseconds. */
  datatype Order = Order(
    id: string,
    customerName: string,
    product: string,
    quantity: int,
    total: int,
    status: OrderStatus,
    date: int)

  /** The cart's invariant: each product id at most once, each quantity at least one. */
  predicate ValidCart(cart: seq<CartItem>) {
    && (forall i, j :: 0 <= i < j < |cart| ==> cart[i].Id() != cart[j].Id())
    && (forall i :: 0 <= i < |cart| ==> cart[i].quantity >= 1)
  }

  /** `prev.find(item => item.id === id)`, as the position it is found at. */
  function FindItem(cart: seq<CartItem>, id: string): Option<nat> {
    FindIndex(cart, (item: CartItem) => item.Id() == id)
  }

  /**
   * The `addToCart` updater: when the product's id is already in the cart,
   * every item with that id gains one; otherwise the product is appended with
   * quantity one.
   */
  function AddedToCart(cart: seq<CartItem>, product: Product): (r: seq<CartItem>)
    ensures FindItem(cart, product.id).Some? ==>
              && |r| == |cart|
              && (forall i :: 0 <= i < |cart| && cart[i].Id() == product.id ==>
                    r[i] == cart[i].(quantity := cart[i].quantity + 1))
              && (forall i :: 0 <= i < |cart| && cart[i].Id() != product.id ==> r[i] == cart[i])
    ensures FindItem(cart, product.id).None? ==> r == cart + [CartItem(product, 1)]
    ensures FindItem(r, product.id).Some?
  {
    if FindItem(cart, product.id).Some? then
      Map(cart, (item: CartItem) =>
        if item.Id() == product.id then item.(quantity := item.quantity + 1) else item)
    else
      var r := cart + [CartItem(product, 1)];
      assert r[|cart|].Id() == product.id;
      r
  }

  /** The `removeFromCart` updater: every item with `id` goes, the rest stay, each as often as before, in order. */
  function RemovedFromCart(cart: seq<CartItem>, id: string): (r: seq<CartItem>)
    ensures forall i :: 0 <= i < |r| ==> r[i].Id() != id && r[i] in cart
    ensures forall i :: 0 <= i < |cart| && cart[i].Id() != id ==> cart[i] in r
    ensures IsSubsequence(r, cart)
    ensures multiset(r) <= multiset(cart)
    ensures forall item: CartItem :: item.Id() != id ==> multiset(r)[item] == multiset(cart)[item]
    ensures FindItem(r, id).None?
  {
    var keep := (item: CartItem) => item.Id() != id;
    FilterCounts(cart, keep);
    Filter(cart, keep)
  }

  /**
   * The `updateQuantity` action: a quantity of zero or less removes the
   * product; otherwise every item with `id` takes the new quantity.
   */
  function QuantityUpdated(cart: seq<CartItem>, id: string, quantity: int): (r: seq<CartItem>)
    ensures quantity <= 0 ==> r == RemovedFromCart(cart, id)
    ensures quantity > 0 ==>
              && |r| == |cart|
              && (forall i :: 0 <= i < |cart| && cart[i].Id() == id ==> r[i] == cart[i].(quantity := quantity))
              && (forall i :: 0 <= i < |cart| && cart[i].Id() != id ==> r[i] == cart[i])
  {
    if quantity <= 0 then RemovedFromCart(cart, id)
    else Map(cart, (item: CartItem) => if item.Id() == id then item.(quantity := quantity) else item)
  }

  lemma AddPreservesValid(cart: seq<CartItem>, product: Product)
    requires ValidCart(cart)
    ensures ValidCart(AddedToCart(cart, product))
  {
    var r := AddedToCart(cart, product);
    if FindItem(cart, product.id).Some? {
      assert forall i :: 0 <= i < |r| ==> r[i].Id() == cart[i].Id();
    }
  }

  lemma {:induction false} RemovePreservesValid(cart: seq<CartItem>, id: string)
    requires ValidCart(cart)
    ensures ValidCart(RemovedFromCart(cart, id))
  {
    FilterKeepsKeysDistinct(cart, (item: CartItem) => item.Id() != id, (item: CartItem) => item.Id());
  }

  lemma UpdatePreservesValid(cart: seq<CartItem>, id: string, quantity: int)
    requires ValidCart(cart)
    ensures ValidCart(QuantityUpdated(cart, id, quantity))
  {
    if quantity <= 0 {
      RemovePreservesValid(cart, id);
    } else {
      var r := QuantityUpdated(cart, id, quantity);
      assert forall i :: 0 <= i < |r| ==> r[i].Id() == cart[i].Id();
    }
  }

  /** The `cart` state of the provider; every operation replaces it through `setCart`. */
  class CartState {
    var cart: seq<CartItem>

    /** The cart starts empty. */
    constructor ()
      ensures cart == [] && ValidCart(cart)
    {
      cart := [];
    }

    method AddToCart(product: Product)
      modifies this
      ensures cart == AddedToCart(old(cart), product)
      ensures old(ValidCart(cart)) ==> ValidCart(cart)
    {
      if ValidCart(cart) {
        AddPreservesValid(cart, product);
      }
      cart := AddedToCart(cart, product);
    }

    method RemoveFromCart(productId: string)
      modifies this
      ensures cart == RemovedFromCart(old(cart), productId)
      ensures old(ValidCart(cart)) ==> ValidCart(cart)
    {
      if ValidCart(cart) {
        RemovePreservesValid(cart, productId);
      }
      cart := RemovedFromCart(cart, productId);
    }

    method UpdateQuantity(productId: string, quantity: int)
      modifies this
      ensures cart == QuantityUpdated(old(cart), productId, quantity)
      ensures old(ValidCart(cart)) ==> ValidCart(cart)
    {
      if ValidCart(cart) {
        UpdatePreservesValid(cart, productId, quantity);
      }
      if quantity <= 0 {
        RemoveFromCart(productId);
        return;
      }
      cart := QuantityUpdated(cart, productId, quantity);
    }

    method ClearCart()
      modifies this
      ensures cart == []
    {
      cart := [];
    }
  }
}
