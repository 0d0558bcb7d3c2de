/**
 * The cart preview (src/components/CartPreview.tsx): item and price totals,
 * when the preview renders, and its "-" and "+" buttons, which call
 * `updateQuantity` with one less or one more.
 */
module CartPreview {
  import opened Wrappers
  import opened SeqUtil
  import opened AppContext

  /** `cart.reduce((sum, item) => sum + item.quantity, 0)`, folded from the left. */
  function TotalItems(cart: seq<CartItem>): (n: int)
    ensures (forall i :: 0 <= i < |cart| ==> cart[i].quantity >= 0) ==> n >= 0
    decreases |cart|
  {
    if |cart| == 0 then 0 else TotalItems(cart[..|cart| - 1]) + cart[|cart| - 1].quantity
  }

  /** `cart.reduce((sum, item) => sum + item.price * item.quantity, 0)`, folded from the left. */
  function TotalPrice(cart: seq<CartItem>): (total: int)
    decreases |cart|
  {
    if |cart| == 0 then 0
    else TotalPrice(cart[..|cart| - 1]) + cart[|cart| - 1].product.price * cart[|cart| - 1].quantity
  }

  /** With no negative price or quantity, the price total is not negative. */
  lemma {:induction false} TotalPriceNonNegative(cart: seq<CartItem>)
    requires forall i :: 0 <= i < |cart| ==> cart[i].product.price >= 0 && cart[i].quantity >= 0
    ensures TotalPrice(cart) >= 0
    decreases |cart|
  {
    if |cart| > 0 {
      var last := cart[|cart| - 1];
      TotalPriceNonNegative(cart[..|cart| - 1]);
      assert last.product.price * last.quantity >= 0;
    }
  }

  /** Both totals of a concatenation are the sums of the totals of its parts. */
  lemma {:induction false} TotalsAppend(a: seq<CartItem>, b: seq<CartItem>)
    ensures TotalItems(a + b) == TotalItems(a) + TotalItems(b)
    ensures TotalPrice(a + b) == TotalPrice(a) + TotalPrice(b)
    decreases |b|
  {
    if |b| == 0 {
      assert a + b == a;
    } else {
      assert (a + b)[..|a + b| - 1] == a + b[..|b| - 1];
      TotalsAppend(a, b[..|b| - 1]);
    }
  }

  /** Replacing one line changes the totals by the difference of the two lines alone. */
  lemma TotalsAfterReplace(cart: seq<CartItem>, i: nat, item: CartItem)
    requires i < |cart|
    ensures TotalItems(cart[i := item]) == TotalItems(cart) - cart[i].quantity + item.quantity
    ensures TotalPrice(cart[i := item]) ==
            TotalPrice(cart) - cart[i].product.price * cart[i].quantity + item.product.price * item.quantity
  {
    var before, after := cart[..i], cart[i + 1..];
    assert cart == before + [cart[i]] + after;
    assert cart[i := item] == before + [item] + after;
    TotalsAppend(before + [cart[i]], after);
    TotalsAppend(before, [cart[i]]);
    TotalsAppend(before + [item], after);
    TotalsAppend(before, [item]);
    assert [cart[i]][..0] == [] && [item][..0] == [];
  }

  /** In a valid cart there are at least as many items as lines. */
  lemma {:induction false} TotalItemsAtLeastLines(cart: seq<CartItem>)
    requires ValidCart(cart)
    ensures TotalItems(cart) >= |cart|
    decreases |cart|
  {
    if |cart| > 0 {
      var init := cart[..|cart| - 1];
      assert ValidCart(init);
      TotalItemsAtLeastLines(init);
    }
  }

  /** `if (totalItems === 0) return null`: the preview renders unless the item total is zero. */
  predicate IsVisible(cart: seq<CartItem>) {
    TotalItems(cart) != 0
  }

  /** For a valid cart, the preview renders exactly when the cart has a line. */
  lemma VisibleIffNonEmpty(cart: seq<CartItem>)
    requires ValidCart(cart)
    ensures IsVisible(cart) <==> |cart| > 0
  {
    TotalItemsAtLeastLines(cart);
  }

  /** In a valid cart, the line holding an id is the only one with that id. */
  lemma OnlyLineWithId(cart: seq<CartItem>, i: nat)
    requires ValidCart(cart) && i < |cart|
    ensures forall j :: 0 <= j < |cart| && j != i ==> cart[j].Id() != cart[i].Id()
  {
    forall j | 0 <= j < |cart| && j != i ensures cart[j].Id() != cart[i].Id() {
      if j < i { assert cart[j].Id() != cart[i].Id(); } else { assert cart[i].Id() != cart[j].Id(); }
    }
  }

  /** In a valid cart, setting a positive quantity by a line's id changes that line alone. */
  lemma SetQuantityOfLine(cart: seq<CartItem>, i: nat, quantity: int)
    requires ValidCart(cart) && i < |cart| && quantity > 0
    ensures QuantityUpdated(cart, cart[i].Id(), quantity) == cart[i := cart[i].(quantity := quantity)]
  {
    OnlyLineWithId(cart, i);
  }

  /** One more of line `i` adds one item and one unit price. */
  lemma TotalsAfterIncrement(cart: seq<CartItem>, i: nat)
    requires i < |cart|
    ensures TotalItems(cart[i := cart[i].(quantity := cart[i].quantity + 1)]) == TotalItems(cart) + 1
    ensures TotalPrice(cart[i := cart[i].(quantity := cart[i].quantity + 1)]) == TotalPrice(cart) + cart[i].product.price
  {
    var p, q := cart[i].product.price, cart[i].quantity;
    TotalsAfterReplace(cart, i, cart[i].(quantity := q + 1));
    assert p * (q + 1) == p * q + p;
  }

  /** One less of line `i` removes one item and one unit price. */
  lemma TotalsAfterDecrement(cart: seq<CartItem>, i: nat)
    requires i < |cart|
    ensures TotalItems(cart[i := cart[i].(quantity := cart[i].quantity - 1)]) == TotalItems(cart) - 1
    ensures TotalPrice(cart[i := cart[i].(quantity := cart[i].quantity - 1)]) == TotalPrice(cart) - cart[i].product.price
  {
    var p, q := cart[i].product.price, cart[i].quantity;
    TotalsAfterReplace(cart, i, cart[i].(quantity := q - 1));
    assert p * (q - 1) == p * q - p;
  }

  /** In a valid cart, adding a product already on line `i` raises that line alone by one. */
  lemma AddExistingIsIncrement(cart: seq<CartItem>, product: Product, i: nat)
    requires ValidCart(cart) && FindItem(cart, product.id) == Some(i)
    ensures i < |cart|
    ensures AddedToCart(cart, product) == cart[i := cart[i].(quantity := cart[i].quantity + 1)]
  {
    OnlyLineWithId(cart, i);
  }

  /**
   * Adding to a valid cart adds one item, and the price of one unit: the
   * price recorded on the line already in the cart, or the product's own.
   */
  lemma AddToCartTotals(cart: seq<CartItem>, product: Product)
    requires ValidCart(cart)
    ensures TotalItems(AddedToCart(cart, product)) == TotalItems(cart) + 1
    ensures TotalPrice(AddedToCart(cart, product)) ==
            TotalPrice(cart) + match FindItem(cart, product.id)
                               case Some(i) => cart[i].product.price
                               case None => product.price
  {
    match FindItem(cart, product.id)
    case Some(i) =>
      AddExistingIsIncrement(cart, product, i);
      TotalsAfterIncrement(cart, i);
    case None =>
      TotalsAppend(cart, [CartItem(product, 1)]);
      assert [CartItem(product, 1)][..0] == [];
  }

  /** The "-" button on line `i`: `updateQuantity(item.id, item.quantity - 1)`; at quantity one the line goes. */
  function OnDecrease(cart: seq<CartItem>, i: nat): (r: seq<CartItem>)
    requires i < |cart|
    ensures cart[i].quantity <= 1 ==> r == RemovedFromCart(cart, cart[i].Id())
    ensures cart[i].quantity <= 1 ==> FindItem(r, cart[i].Id()).None?
  {
    QuantityUpdated(cart, cart[i].Id(), cart[i].quantity - 1)
  }

  /** In a valid cart, "-" above quantity one lowers that line alone, and the item total by one. */
  lemma DecreaseTotals(cart: seq<CartItem>, i: nat)
    requires ValidCart(cart) && i < |cart| && cart[i].quantity > 1
    ensures OnDecrease(cart, i) == cart[i := cart[i].(quantity := cart[i].quantity - 1)]
    ensures TotalItems(OnDecrease(cart, i)) == TotalItems(cart) - 1
    ensures TotalPrice(OnDecrease(cart, i)) == TotalPrice(cart) - cart[i].product.price
  {
    SetQuantityOfLine(cart, i, cart[i].quantity - 1);
    TotalsAfterDecrement(cart, i);
  }

  /** The "+" button on line `i`: `updateQuantity(item.id, item.quantity + 1)`. */
  function OnIncrease(cart: seq<CartItem>, i: nat): (r: seq<CartItem>)
    requires i < |cart|
    ensures cart[i].quantity >= 0 ==> |r| == |cart| && r[i] == cart[i].(quantity := cart[i].quantity + 1)
    ensures cart[i].quantity < 0 ==> r == RemovedFromCart(cart, cart[i].Id())
  {
    QuantityUpdated(cart, cart[i].Id(), cart[i].quantity + 1)
  }

  /** In a valid cart, "+" raises that line alone, the item total by one and the price total by the line's unit price. */
  lemma IncreaseTotals(cart: seq<CartItem>, i: nat)
    requires ValidCart(cart) && i < |cart|
    ensures OnIncrease(cart, i) == cart[i := cart[i].(quantity := cart[i].quantity + 1)]
    ensures TotalItems(OnIncrease(cart, i)) == TotalItems(cart) + 1
    ensures TotalPrice(OnIncrease(cart, i)) == TotalPrice(cart) + cart[i].product.price
  {
    SetQuantityOfLine(cart, i, cart[i].quantity + 1);
    TotalsAfterIncrement(cart, i);
  }
}
