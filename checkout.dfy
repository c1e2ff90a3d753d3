/** The checkout page: its total, the order payload it builds from the cart,
    and the submit sequence that clears the cart only once the order exists. */
module Checkout {
  import opened Wrappers
  import opened CartContext
  import opened CartTotals
  import CartDrawer

  /** One entry of the order payload: the size of the line is not sent. */
  datatype OrderItem = OrderItem(productId: string, quantity: int)

  datatype OrderPayload = OrderPayload(items: seq<OrderItem>)

  /** `cart.map(item => ({ productId: item.product._id, quantity: item.quantity }))`. */
  function Payload(cart: seq<CartItem>): (p: OrderPayload)
    ensures |p.items| == |cart|
    ensures forall i | 0 <= i < |cart| ::
      p.items[i].productId == cart[i].product.id && p.items[i].quantity == cart[i].quantity
  {
    OrderPayload(seq(|cart|, i requires 0 <= i < |cart| => OrderItem(cart[i].product.id, cart[i].quantity)))
  }

  /** The number of items an order asks for. */
  function OrderedCount(items: seq<OrderItem>): int {
    if items == [] then 0 else OrderedCount(items[..|items| - 1]) + items[|items| - 1].quantity
  }

  /** The order asks for exactly as many items as the header badge counts. */
  lemma {:induction false} PayloadCountsItems(cart: seq<CartItem>)
    ensures OrderedCount(Payload(cart).items) == TotalItems(cart)
  {
    if cart != [] {
      var n := |cart| - 1;
      assert Payload(cart).items[..n] == Payload(cart[..n]).items;
      PayloadCountsItems(cart[..n]);
    }
  }

  /** Two carts that differ only in the sizes of their lines give the same payload. */
  lemma PayloadIgnoresSize(a: seq<CartItem>, b: seq<CartItem>)
    requires |a| == |b|
    requires forall i | 0 <= i < |a| :: a[i].product.id == b[i].product.id && a[i].quantity == b[i].quantity
    ensures Payload(a) == Payload(b)
  {
  }

  /** The quantity input of a line: the number typed, with no size and no floor. */
  function QuantityInputCall(item: CartItem, typed: int): (c: StoreCall)
    ensures c.Update? && c.productId == item.product.id && c.quantity == typed && c.size == None
  {
    Update(item.product.id, typed, None)
  }

  /** On a line without a size the input stores whatever is typed, 0 and
      negative numbers included; on a sized line it changes nothing. */
  lemma QuantityInputEffect(cart: seq<CartItem>, i: int, typed: int)
    requires UniqueKeys(cart) && 0 <= i < |cart|
    ensures cart[i].selectedSize == None ==>
      Apply(cart, QuantityInputCall(cart[i], typed)) == cart[i := cart[i].(quantity := typed)]
    ensures cart[i].selectedSize.Some? ==> Apply(cart, QuantityInputCall(cart[i], typed))[i] == cart[i]
  {
    if cart[i].selectedSize == None {
      UpdateChangesOneLine(cart, cart[i].product.id, typed, None, i);
    } else {
      UnsizedCallSkipsSizedLine(cart, QuantityInputCall(cart[i], typed), i);
    }
  }

  /** The Remove button makes the same call as the drawer's: on a line
      without a size it drops exactly that line; on a sized line it keeps it. */
  lemma RemoveButtonEffect(cart: seq<CartItem>, i: int)
    requires UniqueKeys(cart) && 0 <= i < |cart|
    ensures cart[i].selectedSize == None ==> Apply(cart, CartDrawer.RemoveCall(cart[i])) == cart[..i] + cart[i + 1..]
    ensures cart[i].selectedSize.Some? ==> cart[i] in Apply(cart, CartDrawer.RemoveCall(cart[i]))
  {
    if cart[i].selectedSize == None {
      RemoveDropsOneLine(cart, cart[i].product.id, None, i);
    } else {
      UnsizedCallSkipsSizedLine(cart, CartDrawer.RemoveCall(cart[i]), i);
      assert cart[i] in multiset(cart);
    }
  }

  /** Which of its three screens the page renders. */
  datatype Screen = EmptyNotice | ThankYou | OrderForm

  function ScreenFor(cart: seq<CartItem>, submitted: bool): (s: Screen)
    ensures s == ThankYou <==> submitted
    ensures s == EmptyNotice <==> cart == [] && !submitted
  {
    if |cart| == 0 && !submitted then EmptyNotice
    else if submitted then ThankYou
    else OrderForm
  }

  /** The page state: the store it reads, `submitted` and `loading`. */
  class CheckoutPage {
    const store: CartProvider
    var submitted: bool
    var loading: bool

    constructor (store: CartProvider)
      ensures this.store == store && !submitted && !loading
    {
      this.store := store;
      submitted := false;
      loading := false;
    }

    /** `handleSubmit` up to the `await`: an empty cart is refused with no
        state change; otherwise `loading` is set and the payload is built. */
    method BeginSubmit() returns (payload: Option<OrderPayload>)
      modifies this`loading
      ensures |store.cart| == 0 ==> payload == None && loading == old(loading)
      ensures |store.cart| > 0 ==> payload == Some(Payload(store.cart)) && loading
    {
      if |store.cart| == 0 {
        return None;
      }
      loading := true;
      payload := Some(Payload(store.cart));
    }

    /** `handleSubmit` after `createOrder` settles: on success the cart is
        cleared (and saved) and `submitted` set; on failure both stay as
        they were. `loading` ends false either way. */
    method FinishSubmit(created: bool)
      modifies this`submitted, this`loading, store, store.storage
      ensures !loading
      ensures store.hasLoaded == old(store.hasLoaded)
      ensures created ==> store.cart == [] && submitted && store.Synced()
      ensures created && store.hasLoaded ==> store.storage.entries == old(store.storage.entries)[CartKey := Serialized([])]
      ensures created && !store.hasLoaded ==> store.storage.entries == old(store.storage.entries)
      ensures created ==> ScreenFor(store.cart, submitted) == ThankYou
      ensures !created ==> store.cart == old(store.cart) && submitted == old(submitted)
      ensures !created ==> store.storage.entries == old(store.storage.entries)
    {
      if created {
        store.ClearCart();
        submitted := true;
      }
      loading := false;
    }

    /** The whole of `handleSubmit`, with `createOrder` reduced to whether it
        succeeded. */
    method HandleSubmit(created: bool) returns (payload: Option<OrderPayload>)
      modifies this`submitted, this`loading, store, store.storage
      ensures payload == if |old(store.cart)| == 0 then None else Some(Payload(old(store.cart)))
      ensures payload.None? ==>
        && store.cart == old(store.cart) && submitted == old(submitted) && loading == old(loading)
        && store.storage.entries == old(store.storage.entries)
      ensures payload.Some? ==> !loading
      ensures store.hasLoaded == old(store.hasLoaded)
      ensures payload.Some? && created ==> store.cart == [] && submitted
      ensures payload.Some? && created && store.hasLoaded ==>
        store.storage.entries == old(store.storage.entries)[CartKey := Serialized([])]
      ensures payload.Some? && created && !store.hasLoaded ==> store.storage.entries == old(store.storage.entries)
      ensures payload.Some? && !created ==>
        store.cart == old(store.cart) && submitted == old(submitted) && store.storage.entries == old(store.storage.entries)
    {
      payload := BeginSubmit();
      if payload.Some? {
        FinishSubmit(created);
      }
    }
  }
}
