/** The cart drawer: what it shows and the store calls its "−", "+" and
    Remove buttons make. The buttons pass the line's product id and no size. */
module CartDrawer {
  import opened Wrappers
  import opened ProductTypes
  import opened CartContext
  import opened CartTotals

  /** `Math.max(1, q - 1)`: the quantity "−" asks for. */
  function DecrementRequest(q: int): (r: int)
    ensures r >= 1
    ensures r <= q || q < 1
    ensures r == q - 1 || (r == 1 && q <= 2)
  {
    if 1 >= q - 1 then 1 else q - 1
  }

  /** The "−" button of a line. */
  function MinusCall(item: CartItem): (c: StoreCall)
    ensures c.Update? && c.productId == item.product.id && c.size == None
    ensures c.quantity >= 1
  {
    Update(item.product.id, DecrementRequest(item.quantity), None)
  }

  /** The "+" button of a line. */
  function PlusCall(item: CartItem): (c: StoreCall)
    ensures c.Update? && c.productId == item.product.id && c.size == None
    ensures c.quantity > item.quantity
  {
    Update(item.product.id, item.quantity + 1, None)
  }

  /** The Remove button of a line. */
  function RemoveCall(item: CartItem): (c: StoreCall)
    ensures c.Remove? && c.productId == item.product.id && c.size == None
  {
    Remove(item.product.id, None)
  }

  /** What the drawer renders: nothing when closed; otherwise either the
      "Your cart is empty" notice or the lines, and the footer, which holds
      the total and the Checkout button, only for a non-empty cart. */
  datatype DrawerView = Hidden | Shown(emptyNotice: bool, lines: seq<CartItem>, footer: Option<int>)

  function View(open: bool, cart: seq<CartItem>): (v: DrawerView)
    ensures v.Hidden? <==> !open
    ensures v.Shown? ==> (v.emptyNotice <==> |cart| == 0)
    ensures v.Shown? ==> v.lines == cart
    ensures v.Shown? ==> (v.footer.Some? <==> |cart| > 0)
    ensures v.Shown? && v.footer.Some? ==> v.footer.value == TotalPrice(cart)
  {
    if !open then Hidden
    else if |cart| == 0 then Shown(true, [], None)
    else Shown(false, cart, Some(TotalPrice(cart)))
  }

  /** On a line without a size, "−" sets exactly that line to one less
      (floored at 1), so the stepper keeps a quantity of at least 1 at 1 or
      above, and changes nothing else. */
  lemma MinusOnUnsizedLine(cart: seq<CartItem>, i: int)
    requires UniqueKeys(cart) && 0 <= i < |cart| && cart[i].selectedSize == None
    ensures Apply(cart, MinusCall(cart[i])) == cart[i := cart[i].(quantity := DecrementRequest(cart[i].quantity))]
    ensures Apply(cart, MinusCall(cart[i]))[i].quantity >= 1
  {
    UpdateChangesOneLine(cart, cart[i].product.id, DecrementRequest(cart[i].quantity), None, i);
  }

  /** On a line without a size, "+" adds exactly one to that line. */
  lemma PlusOnUnsizedLine(cart: seq<CartItem>, i: int)
    requires UniqueKeys(cart) && 0 <= i < |cart| && cart[i].selectedSize == None
    ensures Apply(cart, PlusCall(cart[i])) == cart[i := cart[i].(quantity := cart[i].quantity + 1)]
  {
    UpdateChangesOneLine(cart, cart[i].product.id, cart[i].quantity + 1, None, i);
  }

  /** On a line with a size (every line the catalog adds has one) the "−"
      and "+" buttons leave the line as it was and Remove keeps it. */
  lemma ButtonsIgnoreSizedLine(cart: seq<CartItem>, i: int)
    requires 0 <= i < |cart| && cart[i].selectedSize.Some?
    ensures Apply(cart, MinusCall(cart[i]))[i] == cart[i]
    ensures Apply(cart, PlusCall(cart[i]))[i] == cart[i]
    ensures cart[i] in Apply(cart, RemoveCall(cart[i]))
  {
    UnsizedCallSkipsSizedLine(cart, MinusCall(cart[i]), i);
    UnsizedCallSkipsSizedLine(cart, PlusCall(cart[i]), i);
    UnsizedCallSkipsSizedLine(cart, RemoveCall(cart[i]), i);
    assert cart[i] in multiset(cart);
  }

  /** A concrete case: one line of two items in size "M"; "−" should bring
      it to 1 but leaves it at 2, and Remove leaves it in the cart. */
  lemma SizedLineStepperCounterexample(p: Product)
    ensures var cart := [CartItem(p, 2, Some("M"))];
      && DecrementRequest(cart[0].quantity) == 1
      && Apply(cart, MinusCall(cart[0])) == cart
      && Apply(cart, RemoveCall(cart[0])) == cart
  {
    var cart := [CartItem(p, 2, Some("M"))];
    UnsizedCallIsNoOp(cart, MinusCall(cart[0]));
    UnsizedCallIsNoOp(cart, RemoveCall(cart[0]));
  }

  // The buttons as evidently intended: the line's own size goes with its id.

  function CorrectedMinusCall(item: CartItem): StoreCall {
    Update(item.product.id, DecrementRequest(item.quantity), item.selectedSize)
  }

  function CorrectedPlusCall(item: CartItem): StoreCall {
    Update(item.product.id, item.quantity + 1, item.selectedSize)
  }

  function CorrectedRemoveCall(item: CartItem): StoreCall {
    Remove(item.product.id, item.selectedSize)
  }

  /** With the size passed along, "−" and "+" act on exactly their own
      line, sized or not, and change only its quantity. */
  lemma CorrectedStepperActsOnOwnLine(cart: seq<CartItem>, i: int)
    requires UniqueKeys(cart) && 0 <= i < |cart|
    ensures Apply(cart, CorrectedMinusCall(cart[i])) == cart[i := cart[i].(quantity := DecrementRequest(cart[i].quantity))]
    ensures Apply(cart, CorrectedPlusCall(cart[i])) == cart[i := cart[i].(quantity := cart[i].quantity + 1)]
  {
    var id, size := cart[i].product.id, cart[i].selectedSize;
    UpdateChangesOneLine(cart, id, DecrementRequest(cart[i].quantity), size, i);
    UpdateChangesOneLine(cart, id, cart[i].quantity + 1, size, i);
  }

  /** With the size passed along, Remove drops exactly its own line. */
  lemma CorrectedRemoveDropsOwnLine(cart: seq<CartItem>, i: int)
    requires UniqueKeys(cart) && 0 <= i < |cart|
    ensures Apply(cart, CorrectedRemoveCall(cart[i])) == cart[..i] + cart[i + 1..]
  {
    RemoveDropsOneLine(cart, cart[i].product.id, cart[i].selectedSize, i);
  }
}
