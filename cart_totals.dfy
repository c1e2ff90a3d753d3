/** The totals the screens derive from the cart on every render: the item
    count of the header badge and the price total of the drawer and of the
    checkout summary. Both are the same left-to-right `reduce` from 0. */
module CartTotals {
  import opened ProductTypes
  import opened CartContext

  /** `cart.reduce((sum, item) => sum + f(item), 0)`. */
  function SumOver(cart: seq<CartItem>, f: CartItem -> int): int {
    if cart == [] then 0 else SumOver(cart[..|cart| - 1], f) + f(cart[|cart| - 1])
  }

  function LinePrice(item: CartItem): int {
    item.product.price * item.quantity
  }

  function LineQuantity(item: CartItem): int {
    item.quantity
  }

  /** A sum of terms none of which is negative is not negative. */
  lemma {:induction false} SumNonNegative(cart: seq<CartItem>, f: CartItem -> int)
    requires forall i | 0 <= i < |cart| :: f(cart[i]) >= 0
    ensures SumOver(cart, f) >= 0
    decreases |cart|
  {
    if cart != [] {
      var init := cart[..|cart| - 1];
      assert forall i | 0 <= i < |init| :: init[i] == cart[i];
      SumNonNegative(init, f);
    }
  }

  /** The drawer's and the checkout's `total`: 0 for an empty cart, and
      never negative while no line's price is. */
  function TotalPrice(cart: seq<CartItem>): (r: int)
    ensures cart == [] ==> r == 0
    ensures (forall i | 0 <= i < |cart| :: LinePrice(cart[i]) >= 0) ==> r >= 0
  {
    if forall i | 0 <= i < |cart| :: LinePrice(cart[i]) >= 0 then
      SumNonNegative(cart, LinePrice);
      SumOver(cart, LinePrice)
    else
      SumOver(cart, LinePrice)
  }

  /** The header's `totalItems`: 0 for an empty cart, and never negative
      while no quantity is. */
  function TotalItems(cart: seq<CartItem>): (r: int)
    ensures cart == [] ==> r == 0
    ensures (forall i | 0 <= i < |cart| :: cart[i].quantity >= 0) ==> r >= 0
  {
    if forall i | 0 <= i < |cart| :: cart[i].quantity >= 0 then
      SumNonNegative(cart, LineQuantity);
      SumOver(cart, LineQuantity)
    else
      SumOver(cart, LineQuantity)
  }

  /** Both totals of an empty cart are 0. */
  lemma EmptyTotals()
    ensures TotalPrice([]) == 0 && TotalItems([]) == 0
  {
  }

  /** The sum over two carts laid end to end is the sum of the two sums. */
  lemma {:induction false} SumAppend(a: seq<CartItem>, b: seq<CartItem>, f: CartItem -> int)
    ensures SumOver(a + b, f) == SumOver(a, f) + SumOver(b, f)
    decreases |b|
  {
    if b == [] {
      assert a + b == a;
    } else {
      var b' := b[..|b| - 1];
      assert (a + b)[..|a + b| - 1] == a + b';
      SumAppend(a, b', f);
    }
  }

  /** Changing one line changes the sum by that line's difference. */
  lemma {:induction false} SumPointChange(s: seq<CartItem>, t: seq<CartItem>, i: int, f: CartItem -> int)
    requires |s| == |t| && 0 <= i < |s|
    requires forall j | 0 <= j < |s| && j != i :: s[j] == t[j]
    ensures SumOver(t, f) == SumOver(s, f) - f(s[i]) + f(t[i])
    decreases |s|
  {
    var n := |s| - 1;
    if i == n {
      assert s[..n] == t[..n];
    } else {
      SumPointChange(s[..n], t[..n], i, f);
    }
  }

  /** Adding a new pair raises the item count by the quantity and the price
      total by price times quantity. */
  lemma TotalsAfterFreshAdd(cart: seq<CartItem>, product: Product, quantity: int, size: Wrappers.Option<string>)
    requires !HasLine(cart, product.id, size)
    ensures TotalItems(AddItem(cart, product, quantity, size)) == TotalItems(cart) + quantity
    ensures TotalPrice(AddItem(cart, product, quantity, size)) == TotalPrice(cart) + product.price * quantity
  {
    var line := CartItem(product, quantity, size);
    SumAppend(cart, [line], LineQuantity);
    SumAppend(cart, [line], LinePrice);
    assert SumOver([line], LinePrice) == LinePrice(line) by {
      assert [line][..0] == [];
    }
    assert SumOver([line], LineQuantity) == LineQuantity(line) by {
      assert [line][..0] == [];
    }
  }

  /** Merging into the existing line `i` raises the item count by the
      quantity and the price total by that line's own (stored) price times
      the quantity. */
  lemma TotalsAfterMerge(cart: seq<CartItem>, product: Product, quantity: int, size: Wrappers.Option<string>, i: int)
    requires UniqueKeys(cart) && 0 <= i < |cart| && Matches(cart[i], product.id, size)
    ensures TotalItems(AddItem(cart, product, quantity, size)) == TotalItems(cart) + quantity
    ensures TotalPrice(AddItem(cart, product, quantity, size)) == TotalPrice(cart) + cart[i].product.price * quantity
  {
    var line := cart[i].(quantity := cart[i].quantity + quantity);
    MergeChangesOneLine(cart, product, quantity, size, i);
    SumPointChange(cart, cart[i := line], i, LineQuantity);
    SumPointChange(cart, cart[i := line], i, LinePrice);
    var p := cart[i].product.price;
    assert p * (cart[i].quantity + quantity) == p * cart[i].quantity + p * quantity;
  }

  /** Setting the quantity of the existing line `i` to `q` changes the item
      count by `q` minus its old quantity, and the price total accordingly. */
  lemma TotalsAfterUpdate(cart: seq<CartItem>, productId: string, q: int, size: Wrappers.Option<string>, i: int)
    requires UniqueKeys(cart) && 0 <= i < |cart| && Matches(cart[i], productId, size)
    ensures TotalItems(UpdateItems(cart, productId, q, size)) == TotalItems(cart) - cart[i].quantity + q
    ensures TotalPrice(UpdateItems(cart, productId, q, size)) == TotalPrice(cart) - LinePrice(cart[i]) + cart[i].product.price * q
  {
    var line := cart[i].(quantity := q);
    UpdateChangesOneLine(cart, productId, q, size, i);
    SumPointChange(cart, cart[i := line], i, LineQuantity);
    SumPointChange(cart, cart[i := line], i, LinePrice);
  }

  /** Removing the existing line `i` takes its quantity and its line price
      off the totals. */
  lemma TotalsAfterRemove(cart: seq<CartItem>, productId: string, size: Wrappers.Option<string>, i: int)
    requires UniqueKeys(cart) && 0 <= i < |cart| && Matches(cart[i], productId, size)
    ensures TotalItems(RemoveItems(cart, productId, size)) == TotalItems(cart) - cart[i].quantity
    ensures TotalPrice(RemoveItems(cart, productId, size)) == TotalPrice(cart) - LinePrice(cart[i])
  {
    RemoveDropsOneLine(cart, productId, size, i);
    var before, after := cart[..i], cart[i + 1..];
    assert cart == before + ([cart[i]] + after);
    SumWithout(before, cart[i], after, LineQuantity);
    SumWithout(before, cart[i], after, LinePrice);
  }

  lemma SumWithout(before: seq<CartItem>, line: CartItem, after: seq<CartItem>, f: CartItem -> int)
    ensures SumOver(before + ([line] + after), f) == SumOver(before + after, f) + f(line)
  {
    SumAppend(before, [line] + after, f);
    SumAppend([line], after, f);
    SumAppend(before, after, f);
    assert [line][..0] == [];
  }

  /** With every quantity at least 1, the item count is at least the number
      of lines, so it is positive exactly when the cart is not empty. */
  lemma {:induction false} ItemsCoverLines(cart: seq<CartItem>)
    requires forall i | 0 <= i < |cart| :: cart[i].quantity >= 1
    ensures TotalItems(cart) >= |cart|
    ensures TotalItems(cart) > 0 <==> cart != []
  {
    if cart != [] {
      ItemsCoverLines(cart[..|cart| - 1]);
    }
  }
}
